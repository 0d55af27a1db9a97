/** The like/dislike toggle of a post, as a transition on the four reaction
    fields of the post: the two lists of user ids and the two counters kept
    beside them. */
module Reactions {

  type UserId = string

  /** How many entries of user `u` a reaction list holds. */
  function Occurrences(s: seq<UserId>, u: UserId): nat
  {
    multiset(s)[u]
  }

  /** The list with every entry of `u` filtered out, the other entries kept in
      their order (the `filter` of the handlers). */
  function Without(s: seq<UserId>, u: UserId): (r: seq<UserId>)
    ensures u !in r
    ensures forall v :: v in r <==> v in s && v != u
    ensures forall v :: v != u ==> Occurrences(r, v) == Occurrences(s, v)
    ensures |r| == |s| - Occurrences(s, u)
  {
    if s == [] then []
    else
      assert s == [s[0]] + s[1..];
      if s[0] == u then Without(s[1..], u)
      else [s[0]] + Without(s[1..], u)
  }

  /** The reaction part of a post: `likes`, `dislikes`, `likesCount`, `dislikesCount`. */
  datatype ReactionState = ReactionState(
    likes: seq<UserId>,
    dislikes: seq<UserId>,
    likesCount: int,
    dislikesCount: int)

  /** `likePost` by user `u`: toggle `u` in `likes`, and drop any dislike of `u`.
      Each counter moves by one exactly when its list is changed. */
  function Like(r: ReactionState, u: UserId): (r': ReactionState)
    ensures u in r'.likes <==> u !in r.likes
    ensures u !in r'.dislikes
    ensures r'.likesCount == if u in r.likes then r.likesCount - 1 else r.likesCount + 1
    ensures r'.dislikesCount == if u in r.dislikes then r.dislikesCount - 1 else r.dislikesCount
  {
    var alreadyLiked := u in r.likes;
    var alreadyDisliked := u in r.dislikes;
    ReactionState(
      if alreadyLiked then Without(r.likes, u) else r.likes + [u],
      if alreadyDisliked then Without(r.dislikes, u) else r.dislikes,
      if alreadyLiked then r.likesCount - 1 else r.likesCount + 1,
      if alreadyDisliked then r.dislikesCount - 1 else r.dislikesCount)
  }

  /** `dislikePost` by user `u`: toggle `u` in `dislikes`, and drop any like of `u`. */
  function Dislike(r: ReactionState, u: UserId): (r': ReactionState)
    ensures u in r'.dislikes <==> u !in r.dislikes
    ensures u !in r'.likes
    ensures r'.dislikesCount == if u in r.dislikes then r.dislikesCount - 1 else r.dislikesCount + 1
    ensures r'.likesCount == if u in r.likes then r.likesCount - 1 else r.likesCount
  {
    var alreadyDisliked := u in r.dislikes;
    var alreadyLiked := u in r.likes;
    ReactionState(
      if alreadyLiked then Without(r.likes, u) else r.likes,
      if alreadyDisliked then Without(r.dislikes, u) else r.dislikes + [u],
      if alreadyLiked then r.likesCount - 1 else r.likesCount,
      if alreadyDisliked then r.dislikesCount - 1 else r.dislikesCount + 1)
  }

  /** The same post seen with likes and dislikes exchanged. */
  function Swap(r: ReactionState): ReactionState
  {
    ReactionState(r.dislikes, r.likes, r.dislikesCount, r.likesCount)
  }

  /** The counters are the lengths of their lists. */
  predicate CountersMatch(r: ReactionState)
  {
    r.likesCount == |r.likes| && r.dislikesCount == |r.dislikes|
  }

  /** Every user appears at most once in the list. */
  predicate NoDuplicates(s: seq<UserId>)
  {
    forall v | v in s :: Occurrences(s, v) <= 1
  }

  /** No user both likes and dislikes the post. */
  predicate Exclusive(r: ReactionState)
  {
    forall v :: v in r.likes ==> v !in r.dislikes
  }

  /** The invariant the two handlers keep between requests. */
  predicate Valid(r: ReactionState)
  {
    CountersMatch(r) && NoDuplicates(r.likes) && NoDuplicates(r.dislikes) && Exclusive(r)
  }

  // ---------------------------------------------------------------------
  // Facts about the filter

  lemma {:induction false} WithoutAbsent(s: seq<UserId>, u: UserId)
    requires u !in s
    ensures Without(s, u) == s
  {
    if s != [] {
      WithoutAbsent(s[1..], u);
    }
  }

  /** The filter of a one-entry list: the entry goes exactly when it is `u`'s. */
  lemma WithoutSingleton(x: UserId, u: UserId)
    ensures Without([x], u) == if x == u then [] else [x]
  {
    assert [x][1..] == [];
  }

  /** The filter works entry by entry: filtering a concatenation is
      concatenating the filtered parts. With `WithoutSingleton` this pins the
      filter down completely, order included. */
  lemma {:induction false} WithoutAppend(a: seq<UserId>, b: seq<UserId>, u: UserId)
    ensures Without(a + b, u) == Without(a, u) + Without(b, u)
  {
    if a == [] {
      assert a + b == b;
    } else {
      assert (a + b)[0] == a[0];
      assert (a + b)[1..] == a[1..] + b;
      WithoutAppend(a[1..], b, u);
    }
  }

  lemma WithoutAppendSelf(s: seq<UserId>, u: UserId)
    ensures Without(s + [u], u) == Without(s, u)
  {
    WithoutAppend(s, [u], u);
    WithoutSingleton(u, u);
  }

  // ---------------------------------------------------------------------
  // The like toggle

  /** A like by `u` touches only `u`'s entries: filtering `u` out of each list
      gives the same sequence before and after, so every other user's
      entries are kept, in their order. */
  lemma LikeKeepsOthers(r: ReactionState, u: UserId)
    ensures Without(Like(r, u).likes, u) == Without(r.likes, u)
    ensures Without(Like(r, u).dislikes, u) == Without(r.dislikes, u)
  {
    if u in r.likes {
      WithoutAbsent(Without(r.likes, u), u);
    } else {
      WithoutAppendSelf(r.likes, u);
    }
    if u in r.dislikes {
      WithoutAbsent(Without(r.dislikes, u), u);
    }
  }

  /** The counters stay equal to the list lengths, and so never go negative,
      as long as `u` had at most one entry in each list. */
  lemma LikeKeepsCounters(r: ReactionState, u: UserId)
    requires CountersMatch(r)
    requires Occurrences(r.likes, u) <= 1 && Occurrences(r.dislikes, u) <= 1
    ensures CountersMatch(Like(r, u))
    ensures Like(r, u).likesCount >= 0 && Like(r, u).dislikesCount >= 0
  {
  }

  /** The invariant holds after every like, whoever likes. */
  lemma LikePreservesValid(r: ReactionState, u: UserId)
    requires Valid(r)
    ensures Valid(Like(r, u))
  {
  }

  /** Mutual exclusion alone is kept by both toggles, whether or not the
      counters match and the lists are free of duplicates. */
  lemma ToggleKeepsExclusive(r: ReactionState, u: UserId)
    requires Exclusive(r)
    ensures Exclusive(Like(r, u))
    ensures Exclusive(Dislike(r, u))
  {
  }

  /** Liking twice, by a user who does not dislike the post, gives back every
      user's membership in both lists and both counters; if the user had not
      liked it either, the lists come back exactly. */
  lemma LikeTwice(r: ReactionState, u: UserId)
    requires u !in r.dislikes
    ensures var r2 := Like(Like(r, u), u);
      && (forall v :: v in r2.likes <==> v in r.likes)
      && r2.dislikes == r.dislikes
      && r2.likesCount == r.likesCount
      && r2.dislikesCount == r.dislikesCount
      && (u !in r.likes ==> r2 == r)
  {
    var r1 := Like(r, u);
    WithoutAbsent(r.dislikes, u);
    if u !in r.likes {
      WithoutAppendSelf(r.likes, u);
      WithoutAbsent(r.likes, u);
    } else {
      assert forall v :: v in r1.likes + [u] <==> v in r1.likes || v == u;
    }
  }

  /** Liking twice, by a user who dislikes the post, leaves the user in
      neither list: the first like replaces the dislike, the second undoes it. */
  lemma LikeTwiceFromDisliked(r: ReactionState, u: UserId)
    requires u in r.dislikes && u !in r.likes
    ensures var r2 := Like(Like(r, u), u);
      && u !in r2.likes && u !in r2.dislikes
      && r2.likes == r.likes
      && r2.dislikes == Without(r.dislikes, u)
      && r2.likesCount == r.likesCount
      && r2.dislikesCount == r.dislikesCount - 1
  {
    WithoutAppendSelf(r.likes, u);
    WithoutAbsent(r.likes, u);
    WithoutAbsent(Without(r.dislikes, u), u);
  }

  // ---------------------------------------------------------------------
  // The dislike toggle, as the mirror image of the like toggle

  /** Disliking is liking with the two lists exchanged. */
  lemma DislikeMirrorsLike(r: ReactionState, u: UserId)
    ensures Dislike(r, u) == Swap(Like(Swap(r), u))
  {
  }

  lemma SwapValid(r: ReactionState)
    ensures Valid(Swap(r)) <==> Valid(r)
  {
  }

  /** The invariant holds after every dislike, whoever dislikes. */
  lemma DislikePreservesValid(r: ReactionState, u: UserId)
    requires Valid(r)
    ensures Valid(Dislike(r, u))
  {
    DislikeMirrorsLike(r, u);
    SwapValid(r);
    LikePreservesValid(Swap(r), u);
    SwapValid(Like(Swap(r), u));
  }

  /** A dislike by `u` touches only `u`'s entries. */
  lemma DislikeKeepsOthers(r: ReactionState, u: UserId)
    ensures Without(Dislike(r, u).likes, u) == Without(r.likes, u)
    ensures Without(Dislike(r, u).dislikes, u) == Without(r.dislikes, u)
  {
    DislikeMirrorsLike(r, u);
    LikeKeepsOthers(Swap(r), u);
  }

  /** The counters stay equal to the list lengths under a dislike. */
  lemma DislikeKeepsCounters(r: ReactionState, u: UserId)
    requires CountersMatch(r)
    requires Occurrences(r.likes, u) <= 1 && Occurrences(r.dislikes, u) <= 1
    ensures CountersMatch(Dislike(r, u))
    ensures Dislike(r, u).likesCount >= 0 && Dislike(r, u).dislikesCount >= 0
  {
  }

  /** Disliking twice, by a user who does not like the post, gives back every
      user's membership and both counters. */
  lemma DislikeTwice(r: ReactionState, u: UserId)
    requires u !in r.likes
    ensures var r2 := Dislike(Dislike(r, u), u);
      && (forall v :: v in r2.dislikes <==> v in r.dislikes)
      && r2.likes == r.likes
      && r2.likesCount == r.likesCount
      && r2.dislikesCount == r.dislikesCount
      && (u !in r.dislikes ==> r2 == r)
  {
    DislikeMirrorsLike(r, u);
    DislikeMirrorsLike(Dislike(r, u), u);
    LikeTwice(Swap(r), u);
  }

  /** A like followed by a dislike leaves the user among the dislikers only. */
  lemma LikeThenDislike(r: ReactionState, u: UserId)
    ensures u in Dislike(Like(r, u), u).dislikes
    ensures u !in Dislike(Like(r, u), u).likes
  {
  }

  /** User A dislikes, then likes, a fresh post. */
  lemma DislikeThenLikeScenario(a: UserId)
    ensures Dislike(ReactionState([], [], 0, 0), a) == ReactionState([], [a], 0, 1)
    ensures Like(Dislike(ReactionState([], [], 0, 0), a), a) == ReactionState([a], [], 1, 0)
  {
  }

  /** Without the at-most-once hypothesis the counter drifts: a user listed
      twice (possible only when two requests race) is removed twice over but
      counted once. */
  lemma DuplicateEntryDrifts(u: UserId)
    ensures var r := Like(ReactionState([u, u], [], 2, 0), u);
      CountersMatch(ReactionState([u, u], [], 2, 0)) && !CountersMatch(r)
  {
  }
}
