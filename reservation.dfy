/** The Flask reservation service: a catalogue of products and a list of subscriptions asking to
    be told when a product becomes available. The two lists are the fields of one `Store`;
    the pure parts (identifier choice, validation of a subscription request, choice of
    notification channels) are functions beside it. */
module Reservation {
  import opened Wrappers

  datatype Product = Product(id: int, name: string, isAvailable: bool)

  /** A stored subscription. Email and phone are kept as submitted, possibly missing. */
  datatype Subscription = Subscription(
    id: int,
    email: Option<string>,
    phone: Option<string>,
    productId: int,
    notified: bool,
    notificationType: string)

  /** The fields of a submitted subscription form. The product id has already been converted
      to an integer. */
  datatype SubscribeForm = SubscribeForm(
    email: Option<string>,
    phone: Option<string>,
    productId: int,
    notificationType: Option<string>)

  /** Why a subscription request is refused, one value per flashed error message. */
  datatype Rejection =
    | EmailRequired
    | PhoneRequired
    | EmailAndPhoneRequired
    | SelectionRequired
    | UnknownProduct
    | AlreadySubscribed

  /** Which simulated channels a notification goes out on. */
  datatype Channels = Channels(email: bool, sms: bool)

  /** One notification sent while a product becomes available. */
  datatype Notice = Notice(subscriptionId: int, channels: Channels)

  /** Refusals of an administrator action. */
  datatype AdminError = LoginRequired | ProductNotFound | SubscriptionNotFound

  /** What a successful toggle reports. */
  datatype ToggleReport =
    | NowAvailable(name: string, notifiedCount: nat, sent: seq<Notice>)
    | NowUnavailable(name: string)

  // ---------------------------------------------------------------------------------------
  // Identifiers

  function Ids(subs: seq<Subscription>): (ids: seq<int>)
    ensures |ids| == |subs| && forall i :: 0 <= i < |subs| ==> ids[i] == subs[i].id
  {
    seq(|subs|, i requires 0 <= i < |subs| => subs[i].id)
  }

  /** The largest element of a non-empty sequence. */
  function MaxOf(ids: seq<int>): (m: int)
    requires |ids| > 0
    ensures forall i :: 0 <= i < |ids| ==> ids[i] <= m
    ensures exists i :: 0 <= i < |ids| && ids[i] == m
  {
    if |ids| == 1 then ids[0]
    else
      var rest := MaxOf(ids[1..]);
      if ids[0] >= rest then ids[0] else rest
  }

  /** The id for a new item: 1 for an empty list, otherwise one more than the largest id. */
  function NextId(ids: seq<int>): (r: int)
    ensures |ids| == 0 ==> r == 1
    ensures |ids| > 0 ==> exists i :: 0 <= i < |ids| && r == ids[i] + 1
    ensures forall i :: 0 <= i < |ids| ==> ids[i] < r
  {
    if |ids| == 0 then 1 else MaxOf(ids) + 1
  }

  /** No two subscriptions share an id. */
  predicate UniqueIds(subs: seq<Subscription>)
  {
    forall i, j :: 0 <= i < |subs| && 0 <= j < |subs| && i != j ==> subs[i].id != subs[j].id
  }

  // ---------------------------------------------------------------------------------------
  // Subscribing

  predicate HasProduct(products: seq<Product>, id: int)
  {
    exists i :: 0 <= i < |products| && products[i].id == id
  }

  /** The duplicate test: some subscription has this email (compared as submitted, so two
      missing emails are equal) and this product. */
  predicate IsSubscribed(subs: seq<Subscription>, email: Option<string>, productId: int)
  {
    exists i :: 0 <= i < |subs| && subs[i].email == email && subs[i].productId == productId
  }

  /** The chosen notification type has the contact details it needs. Any other type needs none. */
  predicate ContactGiven(f: SubscribeForm)
  {
    && (f.notificationType == Some("email") ==> Present(f.email))
    && (f.notificationType == Some("phone") ==> Present(f.phone))
    && (f.notificationType == Some("both") ==> Present(f.email) && Present(f.phone))
  }

  /** The validation of a subscription request against the current lists, in the order the
      checks are made, and the record a successful request stores. */
  function Admit(products: seq<Product>, subs: seq<Subscription>, f: SubscribeForm): (r: Result<Subscription, Rejection>)
    ensures r.Ok? <==>
              && ContactGiven(f)
              && f.productId != 0 && Present(f.notificationType)
              && HasProduct(products, f.productId)
              && !IsSubscribed(subs, f.email, f.productId)
    ensures r.Ok? ==>
              && f.notificationType.Some?
              && r.value == Subscription(NextId(Ids(subs)), f.email, f.phone, f.productId, false, f.notificationType.value)
    ensures r.Ok? ==> forall i :: 0 <= i < |subs| ==> subs[i].id < r.value.id
    // the contact checks come first, then the selection, the product and the duplicate
    ensures f.notificationType == Some("email") && !Present(f.email) ==> r == Err(EmailRequired)
    ensures f.notificationType == Some("phone") && !Present(f.phone) ==> r == Err(PhoneRequired)
    ensures f.notificationType == Some("both") && !(Present(f.email) && Present(f.phone)) ==>
              r == Err(EmailAndPhoneRequired)
    ensures ContactGiven(f) && (f.productId == 0 || !Present(f.notificationType)) ==> r == Err(SelectionRequired)
    ensures r == Err(UnknownProduct) <==>
              ContactGiven(f) && f.productId != 0 && Present(f.notificationType) && !HasProduct(products, f.productId)
    ensures r == Err(AlreadySubscribed) <==>
              && ContactGiven(f) && f.productId != 0 && Present(f.notificationType)
              && HasProduct(products, f.productId) && IsSubscribed(subs, f.email, f.productId)
  {
    if f.notificationType == Some("email") && !Present(f.email) then Err(EmailRequired)
    else if f.notificationType == Some("phone") && !Present(f.phone) then Err(PhoneRequired)
    else if f.notificationType == Some("both") && (!Present(f.email) || !Present(f.phone)) then Err(EmailAndPhoneRequired)
    else if f.productId == 0 || !Present(f.notificationType) then Err(SelectionRequired)
    else if !HasProduct(products, f.productId) then Err(UnknownProduct)
    else if IsSubscribed(subs, f.email, f.productId) then Err(AlreadySubscribed)
    else Ok(Subscription(NextId(Ids(subs)), f.email, f.phone, f.productId, false, f.notificationType.value))
  }

  /** The duplicate test looks at the email only: once a phone-only subscriber (no email) has
      subscribed to a product, every other phone-only request for it is refused, whatever its
      phone number. */
  lemma PhoneOnlyRequestsCollide(products: seq<Product>, subs: seq<Subscription>, f: SubscribeForm, i: nat)
    requires ContactGiven(f) && f.productId != 0 && Present(f.notificationType)
    requires HasProduct(products, f.productId)
    requires i < |subs| && subs[i].productId == f.productId
    requires subs[i].email == None && f.email == None
    ensures Admit(products, subs, f) == Err(AlreadySubscribed)
  {
  }

  // ---------------------------------------------------------------------------------------
  // Notification channels

  /** The channels a notification uses: email for types "email" and "both" when an email is
      present, SMS for types "phone" and "both" when a phone number is present. */
  function ChannelsFor(email: Option<string>, phone: Option<string>, notificationType: string): (c: Channels)
    ensures notificationType == "email" ==> c == Channels(Present(email), false)
    ensures notificationType == "phone" ==> c == Channels(false, Present(phone))
    ensures notificationType == "both" ==> c == Channels(Present(email), Present(phone))
    ensures notificationType !in {"email", "phone", "both"} ==> c == Channels(false, false)
    // a channel fires only towards a contact that is present
    ensures (c.email ==> Present(email)) && (c.sms ==> Present(phone))
  {
    Channels((notificationType == "email" || notificationType == "both") && Present(email),
             (notificationType == "phone" || notificationType == "both") && Present(phone))
  }

  function NoticeFor(s: Subscription): Notice
  {
    Notice(s.id, ChannelsFor(s.email, s.phone, s.notificationType))
  }

  /** A subscription that validation accepted for one of the three known types reaches its
      subscriber on every channel it asked for; any other type reaches nobody. */
  lemma AdmittedGetsRequestedChannels(products: seq<Product>, subs: seq<Subscription>, f: SubscribeForm)
    requires Admit(products, subs, f).Ok?
    ensures var c := NoticeFor(Admit(products, subs, f).value).channels;
            && (f.notificationType == Some("email") ==> c == Channels(true, false))
            && (f.notificationType == Some("phone") ==> c == Channels(false, true))
            && (f.notificationType == Some("both") ==> c == Channels(true, true))
            && (f.notificationType.value !in {"email", "phone", "both"} ==> c == Channels(false, false))
  {
  }

  // ---------------------------------------------------------------------------------------
  // Availability toggling

  /** The first index of a product with this id, if any. */
  function FindProduct(products: seq<Product>, id: int): (k: Option<nat>)
    ensures k.None? <==> !HasProduct(products, id)
    ensures k.Some? ==> k.value < |products| && products[k.value].id == id
    ensures k.Some? ==> forall j :: 0 <= j < k.value ==> products[j].id != id
  {
    if products == [] then None
    else if products[0].id == id then Some(0)
    else
      match FindProduct(products[1..], id)
      case None => None
      case Some(j) => Some(j + 1)
  }

  /** A subscription to `productId` not yet notified: it receives a notice when the product
      becomes available. */
  predicate Awaiting(s: Subscription, productId: int)
  {
    s.productId == productId && !s.notified
  }

  function MarkFor(s: Subscription, productId: int): Subscription
  {
    if s.productId == productId then s.(notified := true) else s
  }

  function ResetFor(s: Subscription, productId: int): Subscription
  {
    if s.productId == productId then s.(notified := false) else s
  }

  /** Every subscription to `productId` marked notified; the others as they were. */
  function MarkNotified(subs: seq<Subscription>, productId: int): (r: seq<Subscription>)
    ensures |r| == |subs| && forall i :: 0 <= i < |subs| ==> r[i] == MarkFor(subs[i], productId)
  {
    seq(|subs|, i requires 0 <= i < |subs| => MarkFor(subs[i], productId))
  }

  /** Every subscription to `productId` marked not notified; the others as they were. */
  function ResetNotified(subs: seq<Subscription>, productId: int): (r: seq<Subscription>)
    ensures |r| == |subs| && forall i :: 0 <= i < |subs| ==> r[i] == ResetFor(subs[i], productId)
  {
    seq(|subs|, i requires 0 <= i < |subs| => ResetFor(subs[i], productId))
  }

  /** The notices sent, in list order, when `productId` becomes available. */
  function Notices(subs: seq<Subscription>, productId: int): seq<Notice>
  {
    if subs == [] then []
    else
      var last := subs[|subs| - 1];
      Notices(subs[..|subs| - 1], productId) + (if Awaiting(last, productId) then [NoticeFor(last)] else [])
  }

  /** The number of positions whose `notified` flag went from false to true. */
  function FlipCount(before: seq<Subscription>, after: seq<Subscription>): nat
    requires |before| == |after|
  {
    if before == [] then 0
    else
      var n := |before| - 1;
      FlipCount(before[..n], after[..n]) + (if !before[n].notified && after[n].notified then 1 else 0)
  }

  /** The reported count equals the number of subscriptions whose flag the marking flipped. */
  lemma {:induction false} NoticeCountIsFlipCount(subs: seq<Subscription>, productId: int)
    ensures |Notices(subs, productId)| == FlipCount(subs, MarkNotified(subs, productId))
  {
    if subs != [] {
      var n := |subs| - 1;
      assert MarkNotified(subs, productId)[..n] == MarkNotified(subs[..n], productId);
      NoticeCountIsFlipCount(subs[..n], productId);
    }
  }

  /** Every notice comes from an awaiting subscription, and every awaiting subscription gets one. */
  lemma {:induction false} NoticesAreForAwaiting(subs: seq<Subscription>, productId: int)
    ensures forall n :: n in Notices(subs, productId) ==>
              exists i :: 0 <= i < |subs| && Awaiting(subs[i], productId) && n == NoticeFor(subs[i])
    ensures forall i :: 0 <= i < |subs| && Awaiting(subs[i], productId) ==>
              NoticeFor(subs[i]) in Notices(subs, productId)
  {
    if subs != [] {
      var n := |subs| - 1;
      NoticesAreForAwaiting(subs[..n], productId);
      forall m | m in Notices(subs, productId)
        ensures exists i :: 0 <= i < |subs| && Awaiting(subs[i], productId) && m == NoticeFor(subs[i])
      {
        if m in Notices(subs[..n], productId) {
          var i :| 0 <= i < n && Awaiting(subs[..n][i], productId) && m == NoticeFor(subs[..n][i]);
          assert subs[i] == subs[..n][i];
        } else {
          assert Awaiting(subs[n], productId) && m == NoticeFor(subs[n]);
        }
      }
      forall i | 0 <= i < |subs| && Awaiting(subs[i], productId)
        ensures NoticeFor(subs[i]) in Notices(subs, productId)
      {
        if i < n {
          assert subs[..n][i] == subs[i];
        }
      }
    }
  }

  /** Once marked, nothing for the product awaits a notice any more. */
  lemma {:induction false} MarkedHasNoNotices(subs: seq<Subscription>, productId: int)
    ensures Notices(MarkNotified(subs, productId), productId) == []
  {
    if subs != [] {
      var n := |subs| - 1;
      assert MarkNotified(subs, productId)[..n] == MarkNotified(subs[..n], productId);
      MarkedHasNoNotices(subs[..n], productId);
    }
  }

  /** After a reset, every subscription to the product awaits a notice again. */
  lemma ResetMakesAllAwaiting(subs: seq<Subscription>, productId: int)
    ensures forall i :: 0 <= i < |subs| && subs[i].productId == productId ==>
              Awaiting(ResetNotified(subs, productId)[i], productId)
  {
  }

  // ---------------------------------------------------------------------------------------
  // Deleting

  /** The list without the subscriptions carrying this id, in the original order. */
  function Without(subs: seq<Subscription>, id: int): (r: seq<Subscription>)
    ensures |r| <= |subs|
    ensures forall s :: s in r <==> s in subs && s.id != id
    // a list without the id comes back unchanged
    ensures (forall i :: 0 <= i < |subs| ==> subs[i].id != id) ==> r == subs
  {
    if subs == [] then []
    else (if subs[0].id != id then [subs[0]] else []) + Without(subs[1..], id)
  }

  /** Deleting shrinks the list exactly when some subscription carries the id. */
  lemma {:induction false} DeleteShrinksIffPresent(subs: seq<Subscription>, id: int)
    ensures |Without(subs, id)| < |subs| <==> exists i :: 0 <= i < |subs| && subs[i].id == id
  {
    if subs != [] {
      DeleteShrinksIffPresent(subs[1..], id);
      if subs[0].id != id {
        assert (exists i :: 0 <= i < |subs| && subs[i].id == id) <==>
               (exists i :: 0 <= i < |subs[1..]| && subs[1..][i].id == id) by {
          forall i | 0 < i < |subs| ensures subs[i] == subs[1..][i - 1] { }
        }
      }
    }
  }

  /** Deleting the id of the first subscription, carried by no other, leaves the tail. */
  lemma DeleteRemovesHead(subs: seq<Subscription>, id: int)
    requires subs != [] && subs[0].id == id
    requires forall i :: 0 < i < |subs| ==> subs[i].id != id
    ensures Without(subs, id) == subs[1..]
  {
    var rest := subs[1..];
    forall i | 0 <= i < |rest| ensures rest[i].id != id {
      assert rest[i] == subs[i + 1];
    }
  }

  /** A first subscription with another id is kept in front. */
  lemma DeleteKeepsHead(subs: seq<Subscription>, id: int)
    requires subs != [] && subs[0].id != id
    ensures Without(subs, id) == [subs[0]] + Without(subs[1..], id)
  {
  }

  /** Splitting out index `k > 0` of a list is splitting out index `k - 1` of its tail. */
  lemma SplitAtTail(subs: seq<Subscription>, k: nat)
    requires 0 < k < |subs|
    ensures [subs[0]] + (subs[1..][..k - 1] + subs[1..][k..]) == subs[..k] + subs[k + 1..]
  {
    assert [subs[0]] + subs[1..][..k - 1] == subs[..k];
    assert subs[1..][k..] == subs[k + 1..];
  }

  /** If only index `k > 0` carries the id, only index `k - 1` of the tail does. */
  lemma OnlyAtInTail(subs: seq<Subscription>, id: int, k: nat)
    requires 0 < k < |subs| && subs[k].id == id
    requires forall i :: 0 <= i < |subs| && i != k ==> subs[i].id != id
    ensures subs[1..][k - 1].id == id
    ensures forall i :: 0 <= i < |subs[1..]| && i != k - 1 ==> subs[1..][i].id != id
  {
    forall i | 0 <= i < |subs[1..]| && i != k - 1 ensures subs[1..][i].id != id {
      assert subs[1..][i] == subs[i + 1];
    }
  }

  /** Deleting an id carried by exactly one subscription, at index `k`, removes that one and
      keeps the rest in order. */
  lemma {:induction false} DeleteRemovesAt(subs: seq<Subscription>, id: int, k: nat)
    requires k < |subs| && subs[k].id == id
    requires forall i :: 0 <= i < |subs| && i != k ==> subs[i].id != id
    ensures Without(subs, id) == subs[..k] + subs[k + 1..]
  {
    if k == 0 {
      DeleteRemovesHead(subs, id);
      assert subs[..0] + subs[1..] == subs[1..];
    } else {
      var rest := subs[1..];
      OnlyAtInTail(subs, id, k);
      DeleteRemovesAt(rest, id, k - 1);
      DeleteKeepsHead(subs, id);
      SplitAtTail(subs, k);
    }
  }

  /** With unique ids, deleting an id that is present removes exactly that one subscription and
      keeps the rest in order. */
  lemma DeleteRemovesOne(subs: seq<Subscription>, id: int, k: nat)
    requires UniqueIds(subs)
    requires k < |subs| && subs[k].id == id
    ensures Without(subs, id) == subs[..k] + subs[k + 1..]
    ensures |Without(subs, id)| == |subs| - 1
  {
    DeleteRemovesAt(subs, id, k);
  }

  /** Dropping the first element keeps ids unique. */
  lemma TailKeepsUniqueIds(subs: seq<Subscription>)
    requires UniqueIds(subs) && subs != []
    ensures UniqueIds(subs[1..])
  {
    var rest := subs[1..];
    forall i, j | 0 <= i < |rest| && 0 <= j < |rest| && i != j ensures rest[i].id != rest[j].id {
      assert rest[i] == subs[i + 1] && rest[j] == subs[j + 1];
    }
  }

  /** Putting a record with a fresh id in front keeps ids unique. */
  lemma ConsKeepsUniqueIds(x: Subscription, tail: seq<Subscription>)
    requires UniqueIds(tail)
    requires forall k :: 0 <= k < |tail| ==> tail[k].id != x.id
    ensures UniqueIds([x] + tail)
  {
    var r := [x] + tail;
    forall i, j | 0 <= i < |r| && 0 <= j < |r| && i != j ensures r[i].id != r[j].id {
      if i > 0 && j > 0 {
        assert r[i] == tail[i - 1] && r[j] == tail[j - 1];
      } else if i == 0 {
        assert r[j] == tail[j - 1];
      } else {
        assert r[i] == tail[i - 1];
      }
    }
  }

  /** Deleting keeps ids unique. */
  lemma {:induction false} WithoutKeepsUniqueIds(subs: seq<Subscription>, id: int)
    requires UniqueIds(subs)
    ensures UniqueIds(Without(subs, id))
  {
    if subs != [] {
      var rest := subs[1..];
      TailKeepsUniqueIds(subs);
      WithoutKeepsUniqueIds(rest, id);
      var tail := Without(rest, id);
      if subs[0].id != id {
        forall k | 0 <= k < |tail| ensures tail[k].id != subs[0].id {
          assert tail[k] in rest;
          var m :| 0 <= m < |rest| && rest[m] == tail[k];
          assert rest[m] == subs[m + 1];
        }
        ConsKeepsUniqueIds(subs[0], tail);
        assert Without(subs, id) == [subs[0]] + tail;
      } else {
        assert Without(subs, id) == tail;
      }
    }
  }

  // ---------------------------------------------------------------------------------------
  // The application state

  class Store {
    var products: seq<Product>
    var subscriptions: seq<Subscription>

    constructor (products: seq<Product>, subscriptions: seq<Subscription>)
      ensures this.products == products && this.subscriptions == subscriptions
    {
      this.products := products;
      this.subscriptions := subscriptions;
    }

    /** Handles a submitted subscription form: on success appends the new record. */
    method Subscribe(f: SubscribeForm) returns (r: Result<Subscription, Rejection>)
      modifies this
      ensures r == Admit(old(products), old(subscriptions), f)
      ensures products == old(products)
      ensures subscriptions == if r.Ok? then old(subscriptions) + [r.value] else old(subscriptions)
      ensures UniqueIds(old(subscriptions)) ==> UniqueIds(subscriptions)
    {
      r := Admit(products, subscriptions, f);
      if r.Ok? {
        subscriptions := subscriptions + [r.value];
      }
    }

    /** Flips a product's availability. Becoming available sends a notice to, and marks, every
        subscription to it not yet notified; becoming unavailable resets all its subscriptions. */
    method ToggleAvailability(loggedIn: bool, productId: int) returns (r: Result<ToggleReport, AdminError>)
      modifies this
      ensures !loggedIn ==> r == Err(LoginRequired)
      ensures loggedIn && !HasProduct(old(products), productId) ==> r == Err(ProductNotFound)
      ensures r.Err? ==> products == old(products) && subscriptions == old(subscriptions)
      ensures r.Ok? <==> loggedIn && HasProduct(old(products), productId)
      ensures r.Ok? ==> FindProduct(old(products), productId).Some?
      ensures r.Ok? ==>
                var k := FindProduct(old(products), productId).value;
                var p := old(products)[k];
                && products == old(products)[k := p.(isAvailable := !p.isAvailable)]
                && (!p.isAvailable ==>
                      && subscriptions == MarkNotified(old(subscriptions), productId)
                      && r.value == NowAvailable(p.name, |Notices(old(subscriptions), productId)|,
                                                 Notices(old(subscriptions), productId)))
                && (p.isAvailable ==>
                      && subscriptions == ResetNotified(old(subscriptions), productId)
                      && r.value == NowUnavailable(p.name))
      ensures Ids(subscriptions) == Ids(old(subscriptions))
    {
      if !loggedIn {
        return Err(LoginRequired);
      }
      var found := FindProduct(products, productId);
      if found.None? {
        return Err(ProductNotFound);
      }
      var k := found.value;
      var oldStatus := products[k].isAvailable;
      products := products[k := products[k].(isAvailable := !oldStatus)];
      var product := products[k];
      if product.isAvailable && !oldStatus {
        var count, sent := NotifySubscribers(productId);
        r := Ok(NowAvailable(product.name, count, sent));
      } else if !product.isAvailable && oldStatus {
        ResetSubscribers(productId);
        r := Ok(NowUnavailable(product.name));
      } else {
        // a toggle always changes the status, so the plain "toggled" message is never shown
        assert false;
      }
    }

    /** The loop run when a product becomes available: sends a notice to every subscription to it
        not yet notified, marks it notified, and counts it. */
    method NotifySubscribers(productId: int) returns (count: nat, sent: seq<Notice>)
      modifies this`subscriptions
      ensures subscriptions == MarkNotified(old(subscriptions), productId)
      ensures sent == Notices(old(subscriptions), productId) && count == |sent|
    {
      ghost var subs0 := subscriptions;
      count, sent := 0, [];
      var i := 0;
      while i < |subscriptions|
        invariant 0 <= i <= |subscriptions| == |subs0|
        invariant forall j :: 0 <= j < i ==> subscriptions[j] == MarkFor(subs0[j], productId)
        invariant forall j :: i <= j < |subscriptions| ==> subscriptions[j] == subs0[j]
        invariant sent == Notices(subs0[..i], productId)
        invariant count == |sent|
      {
        var sub := subscriptions[i];
        assert subs0[..i + 1][..i] == subs0[..i];
        if sub.productId == productId && !sub.notified {
          sent := sent + [NoticeFor(sub)];
          subscriptions := subscriptions[i := sub.(notified := true)];
          count := count + 1;
        }
        i := i + 1;
      }
      assert subs0[..i] == subs0;
    }

    /** The loop run when a product becomes unavailable: every subscription to it is marked not
        notified. */
    method ResetSubscribers(productId: int)
      modifies this`subscriptions
      ensures subscriptions == ResetNotified(old(subscriptions), productId)
    {
      ghost var subs0 := subscriptions;
      var i := 0;
      while i < |subscriptions|
        invariant 0 <= i <= |subscriptions| == |subs0|
        invariant forall j :: 0 <= j < i ==> subscriptions[j] == ResetFor(subs0[j], productId)
        invariant forall j :: i <= j < |subscriptions| ==> subscriptions[j] == subs0[j]
      {
        if subscriptions[i].productId == productId {
          subscriptions := subscriptions[i := subscriptions[i].(notified := false)];
        }
        i := i + 1;
      }
    }

    /** Removes every subscription with this id; reports whether the list shrank. */
    method DeleteSubscription(loggedIn: bool, subId: int) returns (r: Result<(), AdminError>)
      modifies this
      ensures !loggedIn ==> r == Err(LoginRequired) && subscriptions == old(subscriptions)
      ensures loggedIn ==> subscriptions == Without(old(subscriptions), subId)
      ensures loggedIn ==>
                (r == Ok(()) <==> exists i :: 0 <= i < |old(subscriptions)| && old(subscriptions)[i].id == subId)
      ensures loggedIn ==> (r == Ok(()) || r == Err(SubscriptionNotFound))
      ensures products == old(products)
      ensures UniqueIds(old(subscriptions)) ==> UniqueIds(subscriptions)
    {
      if !loggedIn {
        return Err(LoginRequired);
      }
      var originalLen := |subscriptions|;
      ghost var subs0 := subscriptions;
      subscriptions := Without(subscriptions, subId);
      DeleteShrinksIffPresent(subs0, subId);
      if UniqueIds(subs0) {
        WithoutKeepsUniqueIds(subs0, subId);
      }
      if |subscriptions| < originalLen {
        r := Ok(());
      } else {
        r := Err(SubscriptionNotFound);
      }
    }
  }
}
