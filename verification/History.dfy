/** Session history: turns appended with the next number, read back page by page. */
module History {
  import opened Wrappers

  type SessionId = string

  const MAX_TURNS_PER_PAGE: nat := 50

  datatype Turn = Turn(number: nat, role: string, content: string, producedUnder: seq<string>)

  datatype Session = Session(org: string, owner: string)

  datatype Reader = Reader(org: string, sub: string, roles: seq<string>)

  datatype Audit = Audit(action: string, allowed: bool, reason: string, session: SessionId)

  datatype Page = Page(turns: seq<Turn>, next: Option<nat>)

  /** One policy text guards sessions and turns alike. */
  predicate Visible(r: Reader, s: Session, orgReadable: bool) {
    s.org == r.org && (s.owner == r.sub || (orgReadable && "support_manager" in r.roles))
  }

  predicate Owns(r: Reader, s: Session) {
    s.org == r.org && s.owner == r.sub
  }

  /** What `append_turn` builds up: turn `i` carries number `i + 1`. */
  predicate Numbered(turns: seq<Turn>) {
    forall i :: 0 <= i < |turns| ==> turns[i].number == i + 1
  }

  /** `coalesce(max(seq), 0)` */
  function MaxNumber(turns: seq<Turn>): (m: nat)
    ensures forall i :: 0 <= i < |turns| ==> turns[i].number <= m
    ensures m == 0 || exists i :: 0 <= i < |turns| && turns[i].number == m
  {
    if |turns| == 0 then 0
    else
      var rest := MaxNumber(turns[..|turns| - 1]);
      if turns[|turns| - 1].number > rest then turns[|turns| - 1].number else rest
  }

  lemma MaxOfNumbered(turns: seq<Turn>)
    requires Numbered(turns)
    ensures MaxNumber(turns) == |turns|
  {
    if |turns| > 0 {
      assert turns[|turns| - 1].number == |turns|;
    }
  }

  /** `WHERE seq > cursor ORDER BY seq`, the turns already being in order. */
  function Beyond(turns: seq<Turn>, cursor: nat): seq<Turn> {
    if |turns| == 0 then []
    else if turns[0].number > cursor then [turns[0]] + Beyond(turns[1..], cursor)
    else Beyond(turns[1..], cursor)
  }

  /** One more row than asked for tells whether there is a next page. */
  function PageOf(turns: seq<Turn>, cursor: nat, limit: nat): (p: Page)
    requires limit >= 1
  {
    var all := Beyond(turns, cursor);
    if |all| > limit then Page(all[..limit], Some(all[limit - 1].number)) else Page(all, None)
  }

  predicate NumberedFrom(turns: seq<Turn>, start: nat) {
    forall i :: 0 <= i < |turns| ==> turns[i].number == start + i + 1
  }

  lemma {:induction false} BeyondIsSuffix(turns: seq<Turn>, start: nat, cursor: nat)
    requires NumberedFrom(turns, start)
    ensures Beyond(turns, cursor) == turns[(if cursor <= start then 0 else if cursor - start <= |turns| then cursor - start else |turns|)..]
  {
    if |turns| > 0 {
      BeyondIsSuffix(turns[1..], start + 1, cursor);
    }
  }

  lemma PageIsSlice(turns: seq<Turn>, cursor: nat, limit: nat)
    requires Numbered(turns) && limit >= 1
    ensures var p, from := PageOf(turns, cursor, limit), if cursor <= |turns| then cursor else |turns|;
      && from + |p.turns| <= |turns|
      && p.turns == turns[from..from + |p.turns|] && |p.turns| <= limit
      && (p.next == None ==> from + |p.turns| == |turns|)
      && (p.next.Some? ==> p.next.value == from + |p.turns| < |turns| && |p.turns| == limit)
  {
    BeyondIsSuffix(turns, 0, cursor);
    var all := Beyond(turns, cursor);
    if |all| > limit {
      assert all[..limit] == turns[cursor..cursor + limit];
      assert all[limit - 1] == turns[cursor + limit - 1];
    }
  }

  // ---------------------------------------------------------------------------------------------
  // Following the cursor while turns are appended
  // ---------------------------------------------------------------------------------------------

  /** One request: the turns as they stood, the limit asked for, and the page that came back. */
  datatype View = View(turns: seq<Turn>, limit: nat, page: Page)

  function CursorBefore(views: seq<View>, k: nat): nat
    requires k <= |views|
  {
    if k > 0 && views[k - 1].page.next.Some? then views[k - 1].page.next.value else 0
  }

  ghost predicate FollowsAt(views: seq<View>, k: nat)
    requires k < |views|
  {
    && Numbered(views[k].turns)
    && views[k].limit >= 1
    && views[k].page == PageOf(views[k].turns, CursorBefore(views, k), views[k].limit)
    && (k > 0 ==> views[k - 1].page.next.Some? && views[k - 1].turns <= views[k].turns)
  }

  /** A reader follows `next_cursor`, with any limits, while anything is appended between requests. */
  ghost predicate Follows(views: seq<View>) {
    forall k :: 0 <= k < |views| ==> FollowsAt(views, k)
  }

  function Read(views: seq<View>): seq<Turn> {
    if |views| == 0 then [] else Read(views[..|views| - 1]) + views[|views| - 1].page.turns
  }

  /**
   What has been read is exactly the beginning of the transcript, no turn skipped and none repeated;
   the cursor stands at its end, and when no cursor comes back all of it has been read.
   */
  lemma {:induction false} PagingIsExact(views: seq<View>)
    requires Follows(views) && |views| > 0
    ensures var last := views[|views| - 1];
      && |Read(views)| <= |last.turns|
      && Read(views) == last.turns[..|Read(views)|]
      && (last.page.next.None? ==> Read(views) == last.turns)
      && (last.page.next.Some? ==> last.page.next.value == |Read(views)| >= |views|)
  {
    var n := |views| - 1;
    assert FollowsAt(views, n);
    var last, cursor := views[n], CursorBefore(views, n);
    if n > 0 {
      var before := views[..n];
      forall k | 0 <= k < n ensures FollowsAt(before, k) {
        assert FollowsAt(views, k) && CursorBefore(before, k) == CursorBefore(views, k);
      }
      PagingIsExact(before);
      assert Read(before) == last.turns[..cursor];
    }
    assert cursor <= |last.turns|;
    PageIsSlice(last.turns, cursor, last.limit);
    SlicesJoin(last.turns, cursor, cursor + |last.page.turns|);
    assert Read(views) == last.turns[..cursor + |last.page.turns|];
  }

  lemma SlicesJoin(turns: seq<Turn>, a: nat, b: nat)
    requires a <= b <= |turns|
    ensures turns[..a] + turns[a..b] == turns[..b] && |turns[..b]| == b
  {
  }

  // ---------------------------------------------------------------------------------------------
  // Appends and page requests in any order
  // ---------------------------------------------------------------------------------------------

  type Limit = n: nat | 1 <= n <= MAX_TURNS_PER_PAGE witness 20

  datatype Op = Append(role: string, content: string, roles: seq<string>) | NextPage(limit: Limit)

  /** A session, and the requests one reader has made of it so far. */
  datatype Reading = Reading(turns: seq<Turn>, views: seq<View>)

  function Appended(turns: seq<Turn>, role: string, content: string, roles: seq<string>): seq<Turn> {
    turns + [Turn(MaxNumber(turns) + 1, role, content, roles)]
  }

  predicate Finished(views: seq<View>) {
    |views| > 0 && views[|views| - 1].page.next.None?
  }

  /** A reader asks on from its last cursor until none comes back. */
  function Do(r: Reading, op: Op): Reading {
    match op
    case Append(role, content, roles) => r.(turns := Appended(r.turns, role, content, roles))
    case NextPage(limit) =>
      if Finished(r.views) then r
      else r.(views := r.views + [View(r.turns, limit, PageOf(r.turns, CursorBefore(r.views, |r.views|), limit))])
  }

  function RunOf(ops: seq<Op>): Reading {
    if |ops| == 0 then Reading([], []) else Do(RunOf(ops[..|ops| - 1]), ops[|ops| - 1])
  }

  ghost predicate ReadingOk(r: Reading) {
    && Numbered(r.turns)
    && Follows(r.views)
    && (|r.views| > 0 ==> r.views[|r.views| - 1].turns <= r.turns)
  }

  lemma AppendKeeps(r: Reading, role: string, content: string, roles: seq<string>)
    requires ReadingOk(r)
    ensures ReadingOk(Do(r, Append(role, content, roles)))
  {
    MaxOfNumbered(r.turns);
  }

  lemma NextPageFollows(r: Reading, limit: Limit, k: nat)
    requires ReadingOk(r) && !Finished(r.views) && k <= |r.views|
    ensures FollowsAt(Do(r, NextPage(limit)).views, k)
  {
    var views := Do(r, NextPage(limit)).views;
    assert views[..|r.views|] == r.views;
    assert CursorBefore(views, k) == CursorBefore(r.views, k);
    if k < |r.views| {
      assert FollowsAt(r.views, k);
    }
  }

  lemma DoKeeps(r: Reading, op: Op)
    requires ReadingOk(r)
    ensures ReadingOk(Do(r, op))
  {
    match op {
      case Append(role, content, roles) => AppendKeeps(r, role, content, roles);
      case NextPage(limit) =>
        if !Finished(r.views) {
          forall k | 0 <= k < |Do(r, op).views| ensures FollowsAt(Do(r, op).views, k) {
            NextPageFollows(r, limit, k);
          }
        }
    }
  }

  /**
   In every interleaving of appends and page requests, what the reader has read is the beginning of
   the session, no turn skipped and none repeated, and all of it as of the last page if that names no
   next one.
   */
  lemma {:induction false} InterleavedPagingIsExact(ops: seq<Op>)
    ensures ReadingOk(RunOf(ops))
    ensures var r := RunOf(ops);
      && Read(r.views) <= r.turns
      && (Finished(r.views) ==> Read(r.views) == r.views[|r.views| - 1].turns)
  {
    if |ops| > 0 {
      InterleavedPagingIsExact(ops[..|ops| - 1]);
      DoKeeps(RunOf(ops[..|ops| - 1]), ops[|ops| - 1]);
    }
    if |RunOf(ops).views| > 0 {
      PagingIsExact(RunOf(ops).views);
    }
  }

  function Appends(ops: seq<Op>): seq<Op> {
    if |ops| == 0 then []
    else Appends(ops[..|ops| - 1]) + if ops[|ops| - 1].Append? then [ops[|ops| - 1]] else []
  }

  /** The session holds what was appended and nothing else, numbered from one, each turn with its own caller's roles. */
  lemma {:induction false} TurnsAreTheAppends(ops: seq<Op>)
    ensures |RunOf(ops).turns| == |Appends(ops)|
    ensures forall i :: 0 <= i < |Appends(ops)| ==>
              && Appends(ops)[i].Append?
              && RunOf(ops).turns[i] == Turn(i + 1, Appends(ops)[i].role, Appends(ops)[i].content, Appends(ops)[i].roles)
  {
    if |ops| > 0 {
      TurnsAreTheAppends(ops[..|ops| - 1]);
      InterleavedPagingIsExact(ops[..|ops| - 1]);
      MaxOfNumbered(RunOf(ops[..|ops| - 1]).turns);
    }
  }

  // ---------------------------------------------------------------------------------------------
  // The service
  // ---------------------------------------------------------------------------------------------

  class Store {
    var sessions: map<SessionId, Session>
    var turns: map<SessionId, seq<Turn>>
    var trail: seq<Audit>

    ghost predicate Valid()
      reads this
    {
      turns.Keys == sessions.Keys && forall id :: id in turns ==> Numbered(turns[id])
    }

    constructor ()
      ensures Valid() && sessions == map[] && trail == []
    {
      sessions, turns, trail := map[], map[], [];
    }

    method CreateSession(r: Reader, id: SessionId)
      requires Valid() && id !in sessions
      modifies this
      ensures Valid()
      ensures sessions == old(sessions)[id := Session(r.org, r.sub)] && turns == old(turns)[id := []]
      ensures trail == old(trail) + [Audit("session.create", true, "created", id)]
    {
      sessions, turns := sessions[id := Session(r.org, r.sub)], turns[id := []];
      trail := trail + [Audit("session.create", true, "created", id)];
    }

    /** `clean` is the secret filter; the number is one more than any in the session. */
    method AppendTurn(r: Reader, id: SessionId, role: string, content: string, filter: bool, clean: string -> string)
      returns (number: Option<nat>)
      requires Valid()
      modifies this`turns, this`trail
      ensures Valid()
      ensures number.Some? <==> id in sessions && sessions[id].org == r.org && sessions[id].owner == r.sub
      ensures number.None? ==> turns == old(turns)
                               && trail == old(trail) + [Audit("turn.append", false, "session_not_visible", id)]
      ensures number.Some? ==>
                && number.value == |old(turns)[id]| + 1
                && turns == old(turns)[id := Appended(old(turns)[id], role, if filter then clean(content) else content, r.roles)]
                && |trail| == |old(trail)| + 1 && trail[..|old(trail)|] == old(trail) && trail[|old(trail)|].allowed
    {
      if id !in sessions || !Owns(r, sessions[id]) {
        trail := trail + [Audit("turn.append", false, "session_not_visible", id)];
        return None;
      }
      var stored := if filter then clean(content) else content;
      MaxOfNumbered(turns[id]);
      var next := MaxNumber(turns[id]) + 1;
      turns := turns[id := turns[id] + [Turn(next, role, stored, r.roles)]];
      trail := trail + [Audit("turn.append", true, if stored != content then "redacted_secret" else "appended", id)];
      number := Some(next);
    }

    method ReadTurns(r: Reader, id: SessionId, limit: Limit, cursor: Option<nat>, orgReadable: bool) returns (page: Option<Page>)
      requires Valid()
      modifies this`trail
      ensures page.Some? <==> && id in sessions && sessions[id].org == r.org
                              && (sessions[id].owner == r.sub || (orgReadable && "support_manager" in r.roles))
      ensures page.Some? ==> page.value == PageOf(turns[id], if cursor.Some? then cursor.value else 0, limit)
      ensures trail == old(trail) + [
                Audit("transcript.read", page.Some?,
                      if page.None? then "not_visible"
                      else if sessions[id].owner == r.sub then "owner" else "org_readable_manager", id)]
    {
      if id !in sessions || !Visible(r, sessions[id], orgReadable) {
        trail := trail + [Audit("transcript.read", false, "not_visible", id)];
        return None;
      }
      var rows := Rows(turns[id], if cursor.Some? then cursor.value else 0, limit + 1);
      trail := trail + [Audit("transcript.read", true,
                              if sessions[id].owner == r.sub then "owner" else "org_readable_manager", id)];
      page := Some(if |rows| > limit then Page(rows[..limit], Some(rows[limit - 1].number)) else Page(rows, None));
    }

    /** `SELECT … WHERE seq > cursor ORDER BY seq LIMIT limit` */
    static method Rows(turns: seq<Turn>, cursor: nat, limit: nat) returns (rows: seq<Turn>)
      ensures rows == if |Beyond(turns, cursor)| > limit then Beyond(turns, cursor)[..limit] else Beyond(turns, cursor)
    {
      rows := [];
      var i := 0;
      while i < |turns| && |rows| < limit
        invariant i <= |turns| && |rows| <= limit
        invariant Beyond(turns, cursor) == rows + Beyond(turns[i..], cursor)
      {
        if turns[i].number > cursor {
          rows := rows + [turns[i]];
        }
        i := i + 1;
      }
    }
  }
}
