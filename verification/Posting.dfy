/** Idempotent posting: search, post, read back; at most one copy however often a call is cut short and repeated. */
module Posting {
  import opened Vocabulary

  datatype Post = Post(id: nat, key: string, hash: string, updated: nat)

  /**
   * What a call wants to exist, the key of the body's marker and the hash of the whole body; and the cursor of its
   * searches, which see what was last updated at that time or later.
   */
  datatype Wanted = Wanted(key: string, hash: string, since: nat)

  /** The conversation as the server stores it, and the server's clock. */
  datatype Server = Server(posts: seq<Post>, nextId: nat, now: nat)

  predicate Matches(w: Wanted, p: Post) {
    p.key == w.key && p.hash == w.hash
  }

  /** A search finds a post only within its window. */
  predicate Finds(w: Wanted, p: Post) {
    p.updated >= w.since && Matches(w, p)
  }

  function Count(ps: seq<Post>, w: Wanted): nat {
    if ps == [] then 0 else Count(ps[..|ps| - 1], w) + if Matches(w, ps[|ps| - 1]) then 1 else 0
  }

  /** A search of the whole window, or a failure that ends the call, such as more pages than allowed. */
  datatype SearchReply = Answered | SearchFailed

  /**
   * What becomes of one POST: a reply; no reply, with the comment stored or not; or an end of the call by a permanent
   * error or a crash, again with the comment stored or not.
   */
  datatype PostReply = Accepted | Unknown(stored: bool) | Ended(stored: bool)

  /** The read back: the comment, which somebody may have edited in between, or a failure. */
  datatype GetReply = Fetched(editedTo: Option<string>) | Unavailable

  /** Everything the network decides during one call. */
  datatype Weather = Weather(search: SearchReply, post: PostReply, retries: seq<SearchReply>, repost: PostReply,
      get: GetReply)

  datatype Route = FreshPost | FoundExisting | FoundAfterTimeout | RepostedAfterTimeout

  datatype Outcome =
    | PostVerified(route: Route, post: Post) | PostHashMismatch(route: Route, post: Post) | Aborted | NoKey

  // ---- the specification of one call ----

  /** The first comment of the window with the key and the hash. */
  function Find(ps: seq<Post>, w: Wanted): (r: Option<Post>)
    ensures r.Some? ==> r.value in ps && Finds(w, r.value)
    ensures r.None? ==> forall p :: p in ps ==> !Finds(w, p)
  {
    if ps == [] then None
    else if Finds(w, ps[0]) then Some(ps[0])
    else
      assert ps == [ps[0]] + ps[1..];
      Find(ps[1..], w)
  }

  function NewPost(s: Server, w: Wanted): Post {
    Post(s.nextId, w.key, w.hash, s.now)
  }

  function Store(s: Server, w: Wanted): Server {
    s.(posts := s.posts + [NewPost(s, w)], nextId := s.nextId + 1)
  }

  function StoreIf(stored: bool, s: Server, w: Wanted): Server {
    if stored then Store(s, w) else s
  }

  function Rehash(ps: seq<Post>, id: nat, hash: string, now: nat): seq<Post> {
    seq(|ps|, i requires 0 <= i < |ps| => if ps[i].id == id then ps[i].(hash := hash, updated := now) else ps[i])
  }

  /** The read back compares the hash the server has now. */
  function ReadBack(s: Server, w: Wanted, route: Route, p: Post, reply: GetReply): (Server, Outcome) {
    match reply
    case Unavailable => (s, Aborted)
    case Fetched(None) => (s, if p.hash == w.hash then PostVerified(route, p) else PostHashMismatch(route, p))
    case Fetched(Some(hash)) =>
      var edited := p.(hash := hash, updated := s.now);
      (s.(posts := Rehash(s.posts, p.id, hash, s.now)),
       if hash == w.hash then PostVerified(route, edited) else PostHashMismatch(route, edited))
  }

  /** Up to so many complete searches; a failed one ends the call. */
  function Search(ps: seq<Post>, w: Wanted, attempts: nat, replies: seq<SearchReply>): Option<Option<Post>> {
    if attempts == 0 then Some(None)
    else if replies != [] && replies[0].SearchFailed? then None
    else if Find(ps, w).Some? then Some(Find(ps, w))
    else Search(ps, w, attempts - 1, if replies == [] then [] else replies[1..])
  }

  function Repost(s: Server, w: Wanted, weather: Weather): (Server, Outcome) {
    match weather.repost
    case Accepted => ReadBack(Store(s, w), w, RepostedAfterTimeout, NewPost(s, w), weather.get)
    case Unknown(stored) => (StoreIf(stored, s, w), Aborted)
    case Ended(stored) => (StoreIf(stored, s, w), Aborted)
  }

  function Recover(s: Server, w: Wanted, attempts: nat, weather: Weather): (Server, Outcome) {
    match Search(s.posts, w, attempts, weather.retries)
    case None => (s, Aborted)
    case Some(Some(p)) => ReadBack(s, w, FoundAfterTimeout, p, weather.get)
    case Some(None) => Repost(s, w, weather)
  }

  function Ensure(s: Server, w: Wanted, attempts: nat, weather: Weather): (Server, Outcome) {
    match Search(s.posts, w, 1, [weather.search])
    case None => (s, Aborted)
    case Some(Some(p)) => ReadBack(s, w, FoundExisting, p, weather.get)
    case Some(None) =>
      match weather.post
      case Accepted => ReadBack(Store(s, w), w, FreshPost, NewPost(s, w), weather.get)
      case Unknown(stored) => Recover(StoreIf(stored, s, w), w, attempts, weather)
      case Ended(stored) => (StoreIf(stored, s, w), Aborted)
  }

  // ---- the call as it runs ----

  /** The scan of the fetched comments. */
  method FindByMarker(ps: seq<Post>, w: Wanted) returns (r: Option<Post>)
    ensures r == Find(ps, w)
  {
    for i := 0 to |ps|
      invariant Find(ps, w) == Find(ps[i..], w)
    {
      assert ps[i..][1..] == ps[i + 1..];
      if Finds(w, ps[i]) {
        return Some(ps[i]);
      }
    }
    return None;
  }

  class Conversation {
    var posts: seq<Post>
    var nextId: nat
    var now: nat

    function Value(): Server
      reads this
    {
      Server(posts, nextId, now)
    }

    constructor (now: nat)
      ensures Value() == Server([], 0, now)
    {
      posts, nextId, this.now := [], 0, now;
    }

    method PostComment(w: Wanted, reply: PostReply)
      modifies this
      ensures Value() == StoreIf(reply.Accepted? || reply.stored, old(Value()), w)
    {
      if reply.Accepted? || reply.stored {
        posts := posts + [Post(nextId, w.key, w.hash, now)];
        nextId := nextId + 1;
      }
    }

    method VerifyComment(w: Wanted, route: Route, p: Post, reply: GetReply) returns (out: Outcome)
      modifies this
      ensures (Value(), out) == ReadBack(old(Value()), w, route, p, reply)
    {
      match reply
      case Unavailable => out := Aborted;
      case Fetched(None) => out := if p.hash == w.hash then PostVerified(route, p) else PostHashMismatch(route, p);
      case Fetched(Some(hash)) =>
        var edited := p.(hash := hash, updated := now);
        posts := Rehash(posts, p.id, hash, now);
        out := if hash == w.hash then PostVerified(route, edited) else PostHashMismatch(route, edited);
    }

    /** Searches again and again until found, with the failures the network decides. */
    method SearchWithBackoff(w: Wanted, attempts: nat, replies: seq<SearchReply>) returns (r: Option<Option<Post>>)
      ensures r == Search(posts, w, attempts, replies)
    {
      var left := replies;
      for attempt := 0 to attempts
        invariant Search(posts, w, attempts, replies) == Search(posts, w, attempts - attempt, left)
      {
        if left != [] && left[0].SearchFailed? {
          return None;
        }
        var found := FindByMarker(posts, w);
        if found.Some? {
          return Some(found);
        }
        left := if left == [] then [] else left[1..];
      }
      return Some(None);
    }

    /** A body without a marker key is refused before anything is searched or posted. */
    method EnsurePosted(key: Option<string>, hash: string, since: nat, attempts: nat, weather: Weather)
      returns (out: Outcome)
      modifies this
      ensures if key.None? || key.value == "" then Value() == old(Value()) && out == NoKey
              else (Value(), out) == Ensure(old(Value()), Wanted(key.value, hash, since), attempts, weather)
    {
      if key.None? || key.value == "" {
        return NoKey;
      }
      var w := Wanted(key.value, hash, since);
      var existing := SearchWithBackoff(w, 1, [weather.search]);
      if existing.None? {
        return Aborted;
      }
      if existing.value.Some? {
        out := VerifyComment(w, FoundExisting, existing.value.value, weather.get);
        return;
      }
      var route, post := FreshPost, Post(nextId, w.key, w.hash, now);
      PostComment(w, weather.post);
      if weather.post.Ended? {
        return Aborted;
      }
      if weather.post.Unknown? {
        var found := SearchWithBackoff(w, attempts, weather.retries);
        if found.None? {
          return Aborted;
        }
        if found.value.Some? {
          route, post := FoundAfterTimeout, found.value.value;
        } else {
          route, post := RepostedAfterTimeout, Post(nextId, w.key, w.hash, now);
          PostComment(w, weather.repost);
          if !weather.repost.Accepted? {
            return Aborted;
          }
        }
      }
      out := VerifyComment(w, route, post, weather.get);
    }
  }

  // ---- exactly once ----

  /** IDs are given out once. */
  ghost predicate ValidServer(s: Server) {
    && (forall p :: p in s.posts ==> p.id < s.nextId)
    && (forall i, j :: 0 <= i < j < |s.posts| ==> s.posts[i].id != s.posts[j].id)
  }

  /** The window covers the turn: what has key and hash was last updated in it, and so will be what is posted. */
  ghost predicate Covers(s: Server, w: Wanted) {
    s.now >= w.since && InWindow(s.posts, w)
  }

  ghost predicate InWindow(ps: seq<Post>, w: Wanted) {
    forall p :: p in ps && Matches(w, p) ==> Finds(w, p)
  }

  lemma {:induction false} CountFind(ps: seq<Post>, w: Wanted)
    requires InWindow(ps, w)
    ensures Find(ps, w).None? <==> Count(ps, w) == 0
  {
    if ps != [] {
      var init, last := ps[..|ps| - 1], ps[|ps| - 1];
      assert ps == init + [last];
      CountFind(init, w);
      if Find(ps, w).None? {
        assert last in ps && forall p :: p in init ==> p in ps;
      }
    }
  }

  lemma CountStore(s: Server, w: Wanted)
    ensures Count(Store(s, w).posts, w) == Count(s.posts, w) + 1
    ensures ValidServer(s) ==> ValidServer(Store(s, w))
    ensures Covers(s, w) ==> Covers(Store(s, w), w)
  {
    var p := NewPost(s, w);
    assert (s.posts + [p])[..|s.posts|] == s.posts;
  }

  /** An edit away from the wanted hash removes the one match, an edit to the same hash changes nothing. */
  lemma {:induction false} CountRehash(ps: seq<Post>, w: Wanted, p: Post, hash: string, now: nat)
    requires forall i, j :: 0 <= i < j < |ps| ==> ps[i].id != ps[j].id
    requires p in ps && Matches(w, p)
    ensures Count(Rehash(ps, p.id, hash, now), w) == if hash == w.hash then Count(ps, w) else Count(ps, w) - 1
    ensures p.(hash := hash, updated := now) in Rehash(ps, p.id, hash, now)
  {
    var n := |ps| - 1;
    var init, last := ps[..n], ps[n];
    var next := Rehash(ps, p.id, hash, now);
    var k :| 0 <= k < |ps| && ps[k] == p;
    assert next[k] == p.(hash := hash, updated := now);
    assert next[..n] == Rehash(init, p.id, hash, now);
    if k < n {
      assert init[k] == p;
      CountRehash(init, w, p, hash, now);
    } else {
      assert Rehash(init, p.id, hash, now) == init;
    }
  }

  lemma RehashValid(s: Server, w: Wanted, id: nat, hash: string)
    requires ValidServer(s) && Covers(s, w)
    ensures var t := s.(posts := Rehash(s.posts, id, hash, s.now)); ValidServer(t) && Covers(t, w)
  {
    var next := Rehash(s.posts, id, hash, s.now);
    forall p | p in next ensures p.id < s.nextId && (Matches(w, p) ==> Finds(w, p)) {
      var i :| 0 <= i < |next| && next[i] == p;
      assert s.posts[i] in s.posts;
    }
  }

  /** A verified outcome names the only copy; a mismatch leaves none. */
  ghost predicate Settled(s: Server, w: Wanted, out: Outcome) {
    match out
    case PostVerified(_, p) => p in s.posts && Matches(w, p) && Count(s.posts, w) == 1
    case PostHashMismatch(_, p) => p.hash != w.hash && Count(s.posts, w) == 0
    case Aborted => true
    case NoKey => true
  }

  lemma ReadBackSettles(s: Server, w: Wanted, route: Route, p: Post, reply: GetReply)
    requires ValidServer(s) && Covers(s, w) && p in s.posts && Matches(w, p) && Count(s.posts, w) == 1
    ensures var (after, out) := ReadBack(s, w, route, p, reply);
            ValidServer(after) && Covers(after, w) && Count(after.posts, w) <= 1 && Settled(after, w, out)
  {
    hide Count;
    hide Rehash;
    hide Covers;
    if reply.Fetched? && reply.editedTo.Some? {
      CountRehash(s.posts, w, p, reply.editedTo.value, s.now);
      RehashValid(s, w, p.id, reply.editedTo.value);
    }
  }

  lemma {:induction false} SearchFinds(ps: seq<Post>, w: Wanted, attempts: nat, replies: seq<SearchReply>)
    ensures var r := Search(ps, w, attempts, replies);
            && (r.Some? && r.value.Some? ==> r.value == Find(ps, w))
            && (r.Some? && r.value.None? ==> attempts == 0 || Find(ps, w).None?)
    decreases attempts
  {
    hide Find;
    if attempts > 0 {
      SearchFinds(ps, w, attempts - 1, if replies == [] then [] else replies[1..]);
    }
  }

  /** One call, cut short anywhere: never a second copy, and a verified outcome means exactly one. */
  lemma EnsureAtMostOnce(s: Server, w: Wanted, attempts: nat, weather: Weather)
    requires ValidServer(s) && Covers(s, w) && Count(s.posts, w) <= 1 && attempts >= 1
    ensures var (after, out) := Ensure(s, w, attempts, weather);
            ValidServer(after) && Covers(after, w) && Count(after.posts, w) <= 1 && Settled(after, w, out)
  {
    hide ValidServer;
    hide InWindow;
    hide Finds;
    hide Count;
    hide Find;
    hide ReadBack;
    hide Search;
    hide Settled;
    assert forall after :: Settled(after, w, Aborted) by { AbortedSettles(w); }
    SearchFinds(s.posts, w, 1, [weather.search]);
    CountFind(s.posts, w);
    CountStore(s, w);
    var stored := StoreIf(weather.post.Accepted? || weather.post.stored, s, w);
    SearchFinds(stored.posts, w, attempts, weather.retries);
    CountFind(stored.posts, w);
    CountStore(stored, w);
    var created := NewPost(s, w);
    if Find(s.posts, w).Some? {
      FindMatches(s.posts, w);
      ReadBackSettles(s, w, FoundExisting, Find(s.posts, w).value, weather.get);
    } else {
      ReadBackSettles(Store(s, w), w, FreshPost, created, weather.get);
      ReadBackSettles(Store(s, w), w, RepostedAfterTimeout, created, weather.get);
      if Find(stored.posts, w).Some? {
        FindMatches(stored.posts, w);
        ReadBackSettles(stored, w, FoundAfterTimeout, Find(stored.posts, w).value, weather.get);
      }
    }
  }

  lemma FindMatches(ps: seq<Post>, w: Wanted)
    requires Find(ps, w).Some?
    ensures Find(ps, w).value in ps && Matches(w, Find(ps, w).value)
  {}

  lemma AbortedSettles(w: Wanted)
    ensures forall after :: Settled(after, w, Aborted)
  {}

  // ---- any number of interrupted and repeated calls, with other people writing in between ----

  datatype Move = Call(attempts: nat, weather: Weather) | Others(next: Server)

  function After(s: Server, w: Wanted, m: Move): Server {
    match m
    case Call(attempts, weather) => Ensure(s, w, attempts, weather).0
    case Others(next) => next
  }

  /**
   * Nobody else posts this very body under this key, and an update never moves a comment back in time; anything else
   * may happen to the conversation.
   */
  ghost predicate Fair(s: Server, w: Wanted, m: Move) {
    match m
    case Call(attempts, _) => attempts >= 1
    case Others(next) => ValidServer(next) && Covers(next, w) && Count(next.posts, w) <= Count(s.posts, w)
  }

  function Play(s: Server, w: Wanted, moves: seq<Move>): Server {
    if moves == [] then s else After(Play(s, w, moves[..|moves| - 1]), w, moves[|moves| - 1])
  }

  ghost predicate FairPlay(s: Server, w: Wanted, moves: seq<Move>) {
    forall i :: 0 <= i < |moves| ==> Fair(Play(s, w, moves[..i]), w, moves[i])
  }

  /** Exactly-once posting: over every such history there is never a second copy. */
  lemma {:induction false} AtMostOneCopyEver(s: Server, w: Wanted, moves: seq<Move>)
    requires ValidServer(s) && Covers(s, w) && Count(s.posts, w) <= 1 && FairPlay(s, w, moves)
    ensures ValidServer(Play(s, w, moves)) && Covers(Play(s, w, moves), w) && Count(Play(s, w, moves).posts, w) <= 1
    decreases |moves|
  {
    hide ValidServer;
    hide Covers;
    hide Count;
    hide Ensure;
    if moves != [] {
      var n := |moves| - 1;
      assert Fair(Play(s, w, moves[..n]), w, moves[n]);
      forall i | 0 <= i < n ensures Fair(Play(s, w, moves[..n][..i]), w, moves[..n][i]) {
        assert moves[..n][..i] == moves[..i];
      }
      AtMostOneCopyEver(s, w, moves[..n]);
      if moves[n].Call? {
        EnsureAtMostOnce(Play(s, w, moves[..n]), w, moves[n].attempts, moves[n].weather);
      }
    }
  }

  /** A call whose last word is a verified post, after any such history, leaves exactly that one copy. */
  lemma VerifiedMeansExactlyOne(s: Server, w: Wanted, moves: seq<Move>, attempts: nat, weather: Weather)
    requires ValidServer(s) && Covers(s, w) && Count(s.posts, w) <= 1 && FairPlay(s, w, moves) && attempts >= 1
    ensures var (after, out) := Ensure(Play(s, w, moves), w, attempts, weather);
            out.PostVerified? ==> Count(after.posts, w) == 1 && out.post in after.posts && Matches(w, out.post)
  {
    hide ValidServer;
    hide Covers;
    hide Count;
    hide Ensure;
    hide Play;
    AtMostOneCopyEver(s, w, moves);
    EnsureAtMostOnce(Play(s, w, moves), w, attempts, weather);
  }

  /** Without a search after the timeout the guarantee is lost: the bound on attempts is exactly what it needs. */
  lemma SearchAttemptsNeeded(attempts: nat)
    ensures attempts >= 1 <==>
            forall s, w, weather :: ValidServer(s) && Covers(s, w) && Count(s.posts, w) <= 1 ==>
              Count(Ensure(s, w, attempts, weather).0.posts, w) <= 1
  {
    if attempts >= 1 {
      forall s, w, weather | ValidServer(s) && Covers(s, w) && Count(s.posts, w) <= 1
        ensures Count(Ensure(s, w, attempts, weather).0.posts, w) <= 1
      {
        EnsureAtMostOnce(s, w, attempts, weather);
      }
    } else {
      var s, w := Server([], 0, 0), Wanted("key", "hash", 0);
      var weather := Weather(Answered, Unknown(true), [], Accepted, Unavailable);
      CountStore(s, w);
      CountStore(Store(s, w), w);
      assert Search(s.posts, w, 1, [Answered]) == Some(None);
      assert Ensure(s, w, 0, weather).0 == Store(Store(s, w), w);
      assert Count(Ensure(s, w, 0, weather).0.posts, w) == 2;
    }
  }

  /** With one copy in place the window matters just as much: no call adds a second exactly if it covers that copy. */
  lemma WindowNeeded(s: Server, w: Wanted, attempts: nat)
    requires ValidServer(s) && s.now >= w.since && Count(s.posts, w) == 1 && attempts >= 1
    ensures Covers(s, w) <==> forall weather :: Count(Ensure(s, w, attempts, weather).0.posts, w) <= 1
  {
    hide ValidServer;
    hide Count;
    if Covers(s, w) {
      forall weather ensures Count(Ensure(s, w, attempts, weather).0.posts, w) <= 1 {
        EnsureAtMostOnce(s, w, attempts, weather);
      }
    } else {
      var weather := Weather(Answered, PostReply.Accepted, [], PostReply.Accepted, Unavailable);
      OutsideUnfound(s.posts, w);
      CountStore(s, w);
      assert Search(s.posts, w, 1, [Answered]) == Some(None);
      assert Ensure(s, w, attempts, weather).0 == Store(s, w);
    }
  }

  /** The only copy lies outside the window: no search finds anything. */
  lemma {:induction false} OutsideUnfound(ps: seq<Post>, w: Wanted)
    requires Count(ps, w) <= 1 && !InWindow(ps, w)
    ensures Find(ps, w).None?
  {
    var init, last := ps[..|ps| - 1], ps[|ps| - 1];
    assert ps == init + [last];
    if InWindow(init, w) {
      CountFind(init, w);
    } else {
      OutsideUnfound(init, w);
      NothingOutside(init, w);
    }
    assert forall p :: p in ps <==> p in init || p == last;
  }

  lemma {:induction false} NothingOutside(ps: seq<Post>, w: Wanted)
    requires !InWindow(ps, w)
    ensures Count(ps, w) >= 1
  {
    var init, last := ps[..|ps| - 1], ps[|ps| - 1];
    assert ps == init + [last];
    if !Matches(w, last) { NothingOutside(init, w); }
  }

  /** A call that nothing disturbs always ends verified. */
  lemma CalmCallVerifies(s: Server, w: Wanted, attempts: nat, weather: Weather)
    requires ValidServer(s) && attempts >= 1
    requires weather.search.Answered? && weather.post.Accepted? && weather.get == Fetched(None)
    ensures Ensure(s, w, attempts, weather).1.PostVerified?
  {
    hide ValidServer;
    hide Count;
    hide Find;
    SearchFinds(s.posts, w, 1, [weather.search]);
    assert Search(s.posts, w, 1, [weather.search]).Some?;
  }

  // ---- what the network's answers decide ----

  predicate FailsWithin(replies: seq<SearchReply>, n: nat) {
    exists i :: 0 <= i < n && i < |replies| && replies[i].SearchFailed?
  }

  /** The answers that end a call: a search, a post or the read back that it comes to and that does not succeed. */
  predicate CutShort(standing: bool, attempts: nat, weather: Weather) {
    || weather.search.SearchFailed?
    || weather.get.Unavailable?
    || (!standing && weather.post.Ended?)
    || (!standing && weather.post == Unknown(true) && FailsWithin(weather.retries, 1))
    || (!standing && weather.post == Unknown(false)
        && (FailsWithin(weather.retries, attempts) || !weather.repost.Accepted?))
  }

  predicate Standing(s: Server, w: Wanted) {
    exists p :: p in s.posts && Finds(w, p)
  }

  function Made(reply: PostReply): nat {
    if reply.Accepted? || reply.stored then 1 else 0
  }

  /** The comments a call adds: those of its post, and of the second one where the first left nothing to be found. */
  function Added(standing: bool, attempts: nat, weather: Weather): nat {
    if weather.search.SearchFailed? || standing then 0
    else Made(weather.post) + if weather.post == Unknown(false) && !FailsWithin(weather.retries, attempts)
                              then Made(weather.repost) else 0
  }

  /** The way by which a call that is not cut short comes to its comment. */
  function RouteOf(standing: bool, post: PostReply): Route {
    if standing then FoundExisting
    else if post.Accepted? then FreshPost
    else if post.stored then FoundAfterTimeout
    else RepostedAfterTimeout
  }

  lemma {:induction false} SearchExactly(ps: seq<Post>, w: Wanted, attempts: nat, replies: seq<SearchReply>)
    requires attempts >= 1
    ensures Search(ps, w, attempts, replies) ==
            if FailsWithin(replies, if Find(ps, w).Some? then 1 else attempts) then None else Some(Find(ps, w))
    decreases attempts
  {
    hide Find;
    if Find(ps, w).None? {
      var rest := if replies == [] then [] else replies[1..];
      assert FailsWithin(replies, attempts) <==>
             (replies != [] && replies[0].SearchFailed?) || FailsWithin(rest, attempts - 1)
      by {
        if i :| 0 <= i < attempts && i < |replies| && replies[i].SearchFailed? {
          assert i > 0 ==> rest[i - 1] == replies[i];
        }
        if i :| 0 <= i < attempts - 1 && i < |rest| && rest[i].SearchFailed? {
          assert replies[i + 1].SearchFailed?;
        }
      }
      if attempts > 1 { SearchExactly(ps, w, attempts - 1, rest); }
    }
  }

  lemma StandingFound(s: Server, w: Wanted)
    ensures Standing(s, w) <==> Find(s.posts, w).Some?
    ensures s.now >= w.since ==> Find(Store(s, w).posts, w).Some?
  {
    assert NewPost(s, w) in Store(s, w).posts;
  }

  /**
   * What becomes of a call is decided by the network alone: it aborts exactly if an answer cuts it short, otherwise it
   * takes the one way those answers leave, is verified exactly if the comment still has the wanted hash, and has added
   * exactly the comments of its posts.
   */
  lemma EnsureExactly(s: Server, w: Wanted, attempts: nat, weather: Weather)
    requires s.now >= w.since && attempts >= 1
    ensures var (after, out) := Ensure(s, w, attempts, weather); var standing := Standing(s, w);
            && |after.posts| == |s.posts| + Added(standing, attempts, weather)
            && (if CutShort(standing, attempts, weather) then out == Aborted
                else
                  && (out.PostVerified? || out.PostHashMismatch?) && out.route == RouteOf(standing, weather.post)
                  && (out.PostVerified? <==> weather.get.editedTo.None? || weather.get.editedTo == Some(w.hash)))
  {
    hide Find;
    hide FailsWithin;
    hide Search;
    StandingFound(s, w);
    hide Standing;
    SearchExactly(s.posts, w, 1, [weather.search]);
    assert FailsWithin([weather.search], 1) <==> weather.search.SearchFailed? by { OneReply(weather.search); }
    var stored := StoreIf(weather.post.Accepted? || weather.post.stored, s, w);
    SearchExactly(stored.posts, w, attempts, weather.retries);
  }

  lemma OneReply(reply: SearchReply)
    ensures FailsWithin([reply], 1) <==> reply.SearchFailed?
  {
    if reply.SearchFailed? { assert [reply][0].SearchFailed?; }
  }
}
