/** The reference meaning of a stream of events: a plain left fold, one transition per event,
    and the fold over a chosen set of messages that the running system is compared with. */
module Replay {
  import opened Tables
  import opened Brokers

  type Cover = Point -> set<AreaId>

  function Fold(r: UserRows, cover: Cover, events: seq<Event>): UserRows {
    if events == [] then r else
      var e := events[|events| - 1];
      Transition(Fold(r, cover, events[..|events| - 1]), cover(e.at), e.stamp)
  }

  function EventsOf(published: seq<Event>, user: string): seq<Event> {
    if published == [] then [] else
      var e := published[|published| - 1];
      EventsOf(published[..|published| - 1], user) + if e.user == user then [e] else []
  }

  /** The fold over the messages of one user whose numbers are in `done`. */
  function Replayed(base: Rows, cover: Cover, published: seq<Event>, done: set<nat>, user: string): UserRows {
    if published == [] then RowsOf(base, user) else
      var n := |published| - 1;
      var before := Replayed(base, cover, published[..n], done, user);
      if n in done && published[n].user == user
      then Transition(before, cover(published[n].at), published[n].stamp)
      else before
  }

  lemma FoldOneMore(r: UserRows, cover: Cover, published: seq<Event>, user: string, n: nat)
    requires |published| == n + 1
    ensures Fold(r, cover, EventsOf(published, user)) ==
      var before := Fold(r, cover, EventsOf(published[..n], user));
      if published[n].user == user then Transition(before, cover(published[n].at), published[n].stamp) else before
  {
    var events := EventsOf(published, user);
    if published[n].user == user {
      assert events[..|events| - 1] == EventsOf(published[..n], user);
    } else {
      assert events == EventsOf(published[..n], user);
    }
  }

  lemma {:induction false} ReplayedIsFoldOfPrefix(base: Rows, cover: Cover, published: seq<Event>, done: set<nat>, user: string, k: nat)
    requires k <= |published|
    requires forall m: nat :: m < |published| && published[m].user == user ==> (m in done <==> m < k)
    ensures Replayed(base, cover, published, done, user) == Fold(RowsOf(base, user), cover, EventsOf(published[..k], user))
    decreases |published|
  {
    if published == [] {
      assert published[..k] == [];
    } else {
      var n := |published| - 1;
      if k == |published| {
        ReplayedIsFoldOfPrefix(base, cover, published[..n], done, user, n);
        FoldOneMore(RowsOf(base, user), cover, published, user, n);
        assert published[..n][..n] == published[..n] && published[..k] == published;
      } else {
        ReplayedIsFoldOfPrefix(base, cover, published[..n], done, user, k);
        assert published[..n][..k] == published[..k];
      }
    }
  }

  lemma {:induction false} SameDoneSameReplay(base: Rows, cover: Cover, published: seq<Event>, done: set<nat>, also: set<nat>, user: string)
    requires forall m: nat :: m < |published| && published[m].user == user ==> (m in done <==> m in also)
    ensures Replayed(base, cover, published, done, user) == Replayed(base, cover, published, also, user)
    decreases |published|
  {
    if published != [] {
      SameDoneSameReplay(base, cover, published[..|published| - 1], done, also, user);
    }
  }

  /** One more message, later than all that are done for its user, is one more transition. */
  lemma {:induction false} ReplayOneMore(base: Rows, cover: Cover, published: seq<Event>, done: set<nat>, n: nat)
    requires n < |published| && n !in done
    requires forall m :: m in done && m < |published| && published[m].user == published[n].user ==> m < n
    ensures var e := published[n];
      Replayed(base, cover, published, done + {n}, e.user)
      == Transition(Replayed(base, cover, published, done, e.user), cover(e.at), e.stamp)
    decreases |published|
  {
    var last := |published| - 1;
    if n == last {
      SameDoneSameReplay(base, cover, published[..last], done, done + {n}, published[n].user);
    } else {
      ReplayOneMore(base, cover, published[..last], done, n);
      assert published[..last][n] == published[n];
    }
  }

  /** After the latest message done for a user, presence is what that message covers. */
  lemma {:induction false} ReplayEndsAtLatest(base: Rows, cover: Cover, published: seq<Event>, done: set<nat>, n: nat)
    requires n < |published| && n in done
    requires forall m :: m in done && m < |published| && published[m].user == published[n].user ==> m <= n
    ensures Replayed(base, cover, published, done, published[n].user).presence == cover(published[n].at)
    decreases |published|
  {
    var last := |published| - 1;
    if n < last {
      assert last !in done || published[last].user != published[n].user;
      ReplayEndsAtLatest(base, cover, published[..last], done, n);
      assert published[..last][n] == published[n];
    }
  }
}
