/** The channel profile: a user record joined with the subscription relation
    at query time. Nothing here is stored; counts and the viewer's flag are
    recomputed from the edges on every request. */
module Channels {
  import opened Common
  import opened Text
  import opened Accounts

  /** One subscription document: `subscriber` follows `channel`. */
  datatype Subscription = Subscription(subscriber: UserId, channel: UserId)

  /** The `foreignField` a `$lookup` into the subscriptions joins on. */
  datatype Side = BySubscriber | ByChannel

  function Key(e: Subscription, side: Side): UserId
  {
    match side
    case BySubscriber => e.subscriber
    case ByChannel => e.channel
  }

  /** `$lookup` from "subscriptions", `localField: "_id"`, `foreignField:
      side`: exactly the subscriptions whose `side` field is `id`, each as
      often as the collection holds it. */
  function Lookup(edges: seq<Subscription>, side: Side, id: UserId): (r: seq<Subscription>)
    ensures forall e :: multiset(r)[e] == if Key(e, side) == id then multiset(edges)[e] else 0
  {
    if edges == [] then []
    else
      var rest := Lookup(edges[1..], side, id);
      assert edges == [edges[0]] + edges[1..];
      if Key(edges[0], side) == id then [edges[0]] + rest else rest
  }

  /** The positions of the subscriptions whose `side` field is `id`. */
  ghost function EdgesOn(edges: seq<Subscription>, side: Side, id: UserId): set<nat>
  {
    set i | 0 <= i < |edges| && Key(edges[i], side) == id
  }

  /** A lookup over two stretches of the collection is the two lookups, in order. */
  lemma {:induction false} LookupAppend(a: seq<Subscription>, b: seq<Subscription>, side: Side, id: UserId)
    ensures Lookup(a + b, side, id) == Lookup(a, side, id) + Lookup(b, side, id)
  {
    if a == [] {
      assert a + b == b;
    } else {
      assert (a + b)[1..] == a[1..] + b;
      LookupAppend(a[1..], b, side, id);
    }
  }

  /** Appending a subscription adds at most its own position. */
  lemma EdgesOnSnoc(init: seq<Subscription>, last: Subscription, side: Side, id: UserId)
    ensures EdgesOn(init + [last], side, id)
         == EdgesOn(init, side, id) + (if Key(last, side) == id then {|init|} else {})
  {
    var edges := init + [last];
    forall i: nat
      ensures i in EdgesOn(edges, side, id) <==> i in EdgesOn(init, side, id) + (if Key(last, side) == id then {|init|} else {})
    {
      if i < |init| { assert edges[i] == init[i]; }
    }
  }

  /** `$size` of a lookup is the number of subscription documents whose
      `side` field is `id`. */
  lemma {:induction false} LookupSizeCountsEdges(edges: seq<Subscription>, side: Side, id: UserId)
    ensures |Lookup(edges, side, id)| == |EdgesOn(edges, side, id)|
  {
    if edges == [] {
      assert EdgesOn(edges, side, id) == {};
    } else {
      var n := |edges| - 1;
      var init, last := edges[..n], edges[n];
      assert edges == init + [last];
      LookupAppend(init, [last], side, id);
      LookupSizeCountsEdges(init, side, id);
      assert [last][1..] == [];
      assert |Lookup([last], side, id)| == if Key(last, side) == id then 1 else 0;
      EdgesOnSnoc(init, last, side, id);
      assert n !in EdgesOn(init, side, id);
    }
  }

  /** `"$subscribers.subscriber"`: the subscriber field of each looked-up document. */
  function SubscriberIds(es: seq<Subscription>): seq<UserId>
  {
    seq(|es|, i requires 0 <= i < |es| => es[i].subscriber)
  }

  /** The `$in` test behind `isSubscribed`: the viewer is among the channel's
      subscribers exactly when the subscription (viewer, channel) exists. */
  lemma SubscribedIffEdge(edges: seq<Subscription>, viewer: UserId, channel: UserId)
    ensures viewer in SubscriberIds(Lookup(edges, ByChannel, channel)) <==> Subscription(viewer, channel) in edges
  {
    var l := Lookup(edges, ByChannel, channel);
    var e := Subscription(viewer, channel);
    if viewer in SubscriberIds(l) {
      var i :| 0 <= i < |l| && SubscriberIds(l)[i] == viewer;
      assert l[i] in multiset(l);
      assert l[i] == e;
      assert multiset(edges)[e] > 0;
    }
    if e in edges {
      assert multiset(l)[e] == multiset(edges)[e] > 0;
      var i :| 0 <= i < |l| && l[i] == e;
      assert SubscriberIds(l)[i] == viewer;
    }
  }

  /** The projected profile document. */
  datatype ChannelProfile = ChannelProfile(
    id: UserId,
    fullName: string,
    username: string,
    subscribersCount: nat,
    channelsSubscribedToCount: nat,
    isSubscribed: bool,
    avatar: Url,
    coverImage: Url,
    email: string)

  /** `$match: { username: name }`. */
  function ChannelsNamed(users: map<UserId, User>, name: string): set<UserId>
  {
    set id | id in users && users[id].username == name
  }

  /** The profile of one user and the viewer's relation to it. */
  function ProfileOf(users: map<UserId, User>, edges: seq<Subscription>, viewer: Option<UserId>, id: UserId)
    : ChannelProfile
    requires id in users
  {
    var u := users[id];
    ChannelProfile(
      id := id,
      fullName := u.fullName,
      username := u.username,
      subscribersCount := |Lookup(edges, ByChannel, id)|,
      channelsSubscribedToCount := |Lookup(edges, BySubscriber, id)|,
      isSubscribed := viewer.Some? && viewer.value in SubscriberIds(Lookup(edges, ByChannel, id)),
      avatar := u.avatar,
      coverImage := u.coverImage,
      email := u.email)
  }

  /** `getUserChannelProfile`: a blank or missing name is a 400; the name is
      lower-cased (not trimmed) and matched against the stored names; no
      match is a 404; otherwise the first match's profile, whose counts are
      the numbers of subscription edges into and out of it and whose flag
      says whether the viewer subscribes to it. */
  function GetChannelProfile(users: map<UserId, User>, edges: seq<Subscription>,
                             viewer: Option<UserId>, username: Option<string>): (r: Result<ChannelProfile, ApiError>)
    ensures r == Failure(ApiError(BAD_REQUEST, UsernameMissing)) <==> username.None? || IsBlank(username.value)
    ensures r == Failure(ApiError(NOT_FOUND, ChannelDoesNotExist)) <==>
      username.Some? && !IsBlank(username.value)
      && forall id :: id in users ==> users[id].username != ToLower(username.value)
    ensures r.Success? <==>
      && username.Some? && !IsBlank(username.value)
      && exists id :: id in users && users[id].username == ToLower(username.value)
    ensures r.Success? ==>
      && username.Some?
      && r.value.id in users
      && (forall id :: id in users && users[id].username == ToLower(username.value) ==> r.value.id <= id)
      && r.value.username == users[r.value.id].username == ToLower(username.value)
      && r.value.email == users[r.value.id].email
      && r.value.fullName == users[r.value.id].fullName
      && r.value.avatar == users[r.value.id].avatar
      && r.value.coverImage == users[r.value.id].coverImage
    ensures r.Success? ==>
      && r.value.subscribersCount == |EdgesOn(edges, ByChannel, r.value.id)|
      && r.value.channelsSubscribedToCount == |EdgesOn(edges, BySubscriber, r.value.id)|
      && (r.value.isSubscribed <==> viewer.Some? && Subscription(viewer.value, r.value.id) in edges)
  {
    if username.None? || Trim(username.value) == "" then Failure(ApiError(BAD_REQUEST, UsernameMissing))
    else
      var name := ToLower(username.value);
      var ids := ChannelsNamed(users, name);
      assert forall id :: id in users && users[id].username == name ==> id in ids;
      if ids == {} then Failure(ApiError(NOT_FOUND, ChannelDoesNotExist))
      else
        var id := Least(ids);
        LookupSizeCountsEdges(edges, ByChannel, id);
        LookupSizeCountsEdges(edges, BySubscriber, id);
        SubscribedIffEdge(edges, if viewer.Some? then viewer.value else 0, id);
        Success(ProfileOf(users, edges, viewer, id))
  }

  /** All subscriptions except those equal to `e`. */
  function Without(edges: seq<Subscription>, e: Subscription): (r: seq<Subscription>)
    ensures e !in r
    ensures forall x :: x != e ==> multiset(r)[x] == multiset(edges)[x]
  {
    if edges == [] then []
    else
      assert edges == [edges[0]] + edges[1..];
      if edges[0] == e then Without(edges[1..], e) else [edges[0]] + Without(edges[1..], e)
  }

  /** Subscribing is visible to the very next profile query: the same
      channel is found, its subscriber count grows by one and the viewer's
      flag is set. */
  lemma SubscribeShowsAtOnce(users: map<UserId, User>, edges: seq<Subscription>, viewer: UserId, name: string)
    requires !IsBlank(name)
    requires exists id :: id in users && users[id].username == ToLower(name)
    ensures var before := GetChannelProfile(users, edges, Some(viewer), Some(name)).value;
      var after := GetChannelProfile(users, edges + [Subscription(viewer, before.id)], Some(viewer), Some(name));
      && after.Success?
      && after.value.id == before.id
      && after.value.isSubscribed
      && after.value.subscribersCount == before.subscribersCount + 1
      && after.value.channelsSubscribedToCount == before.channelsSubscribedToCount
         + (if viewer == before.id then 1 else 0)
  {
    var before := GetChannelProfile(users, edges, Some(viewer), Some(name)).value;
    var e := Subscription(viewer, before.id);
    var edges' := edges + [e];
    LookupAppend(edges, [e], ByChannel, before.id);
    LookupAppend(edges, [e], BySubscriber, before.id);
    assert [e][1..] == [];
    LookupSizeCountsEdges(edges, ByChannel, before.id);
    LookupSizeCountsEdges(edges', ByChannel, before.id);
    LookupSizeCountsEdges(edges, BySubscriber, before.id);
    LookupSizeCountsEdges(edges', BySubscriber, before.id);
  }

  /** Unsubscribing is visible to the very next profile query: the viewer's
      flag is cleared and the count drops by the removed documents. */
  lemma UnsubscribeShowsAtOnce(users: map<UserId, User>, edges: seq<Subscription>, viewer: UserId, name: string)
    requires !IsBlank(name)
    requires exists id :: id in users && users[id].username == ToLower(name)
    ensures var before := GetChannelProfile(users, edges, Some(viewer), Some(name)).value;
      var e := Subscription(viewer, before.id);
      var after := GetChannelProfile(users, Without(edges, e), Some(viewer), Some(name));
      && after.Success?
      && after.value.id == before.id
      && !after.value.isSubscribed
      && after.value.subscribersCount == before.subscribersCount - multiset(edges)[e]
  {
    var before := GetChannelProfile(users, edges, Some(viewer), Some(name)).value;
    var e := Subscription(viewer, before.id);
    var rest := Without(edges, e);
    LookupSizeCountsEdges(edges, ByChannel, before.id);
    LookupSizeCountsEdges(rest, ByChannel, before.id);
    LookupWithout(edges, e);
    SubscribedIffEdge(rest, viewer, before.id);
  }

  /** Removing the copies of one subscription shrinks its channel's lookup by
      exactly the number of copies. */
  lemma {:induction false} LookupWithout(edges: seq<Subscription>, e: Subscription)
    ensures |Lookup(edges, ByChannel, e.channel)| == |Lookup(Without(edges, e), ByChannel, e.channel)| + multiset(edges)[e]
  {
    if edges != [] {
      assert edges == [edges[0]] + edges[1..];
      LookupWithout(edges[1..], e);
    }
  }

  /** A capitalised spelling of a registered name finds the same channel:
      the name is lower-cased before it is matched. */
  lemma ProfileLookupIgnoresCase(users: map<UserId, User>, edges: seq<Subscription>,
                                 viewer: Option<UserId>, name: string, variant: string)
    requires !IsBlank(variant) && !IsBlank(name)
    requires ToLower(variant) == ToLower(name)
    ensures GetChannelProfile(users, edges, viewer, Some(variant)) == GetChannelProfile(users, edges, viewer, Some(name))
  {
  }
}
