/**
 The table of passkey ceremonies in progress. The table is swept when one starts and emptied one by one as they
 finish; it is proved against the history of every ceremony ever started and every id asked for since.
 */
module Passkeys {
  import opened Options

  const CEREMONY_TTL: int := 5 * 60
  const CEREMONY_CAP: nat := 1000
  const CEREMONIES_PER_ADDRESS: nat := 10

  /** `session` stands for what a ceremony carries: session data, user and origin. */
  datatype Ceremony = Ceremony(session: nat, addr: string, expires: int)

  datatype Started = Id(id: string) | TokenFailed | RateLimited

  /** What happened so far: ceremonies by id, the ids of theirs asked for, and when each was handed out. */
  datatype History = History(issued: map<string, Ceremony>, asked: set<string>, handed: map<string, int>)

  /** The ceremonies started, not asked for and not expired. */
  function Open(h: History, now: int): set<string> {
    set id | id in h.issued && id !in h.asked && now < h.issued[id].expires
  }

  function OpenFrom(h: History, now: int, addr: string): set<string> {
    set id | id in h.issued && id !in h.asked && now < h.issued[id].expires && h.issued[id].addr == addr
  }

  /** The table holds only ceremonies not asked for, and every one still open. */
  ghost predicate Agrees(m: map<string, Ceremony>, h: History, clock: int) {
    && (forall id :: id in m ==> id in h.issued && m[id] == h.issued[id] && id !in h.asked)
    && Open(h, clock) <= m.Keys
  }

  ghost predicate WithinBounds(h: History, clock: int) {
    forall addr :: |OpenFrom(h, clock, addr)| <= CEREMONIES_PER_ADDRESS
  }

  ghost predicate HandedInTime(h: History) {
    && h.asked <= h.issued.Keys
    && forall id :: id in h.handed ==> id in h.asked && h.handed[id] < h.issued[id].expires
  }

  lemma {:induction false} FewerInSubset(a: set<string>, b: set<string>)
    requires a <= b
    ensures |a| <= |b|
    decreases a
  {
    if x :| x in a {
      FewerInSubset(a - {x}, b - {x});
    }
  }

  /** As time passes, ceremonies only close. */
  lemma LaterBounds(h: History, clock: int, now: int)
    requires WithinBounds(h, clock) && clock <= now
    ensures WithinBounds(h, now)
  {
    forall addr ensures |OpenFrom(h, now, addr)| <= CEREMONIES_PER_ADDRESS {
      FewerInSubset(OpenFrom(h, now, addr), OpenFrom(h, clock, addr));
    }
  }

  /** A ceremony started. */
  function Issue(h: History, id: string, c: Ceremony): History {
    h.(issued := h.issued[id := c])
  }

  /** An id asked for, and the ceremony handed out when it was open. */
  function Ask(h: History, now: int, id: string): History {
    if id in Open(h, now) then h.(asked := h.asked + {id}, handed := h.handed[id := now])
    else if id in h.issued then h.(asked := h.asked + {id})
    else h
  }

  lemma IssueKeepsBounds(h: History, now: int, id: string, c: Ceremony)
    requires WithinBounds(h, now) && HandedInTime(h) && id !in h.issued &&
             |OpenFrom(h, now, c.addr)| < CEREMONIES_PER_ADDRESS
    ensures WithinBounds(Issue(h, id, c), now) && HandedInTime(Issue(h, id, c))
  {
    var z := Issue(h, id, c);
    forall addr ensures |OpenFrom(z, now, addr)| <= CEREMONIES_PER_ADDRESS {
      if addr == c.addr {
        assert OpenFrom(z, now, addr) <= OpenFrom(h, now, addr) + {id};
        FewerInSubset(OpenFrom(z, now, addr), OpenFrom(h, now, addr) + {id});
      } else {
        assert OpenFrom(z, now, addr) == OpenFrom(h, now, addr);
      }
    }
  }

  lemma AskKeepsBounds(h: History, now: int, id: string)
    requires WithinBounds(h, now) && HandedInTime(h)
    ensures WithinBounds(Ask(h, now, id), now) && HandedInTime(Ask(h, now, id))
  {
    forall addr ensures |OpenFrom(Ask(h, now, id), now, addr)| <= CEREMONIES_PER_ADDRESS {
      FewerInSubset(OpenFrom(Ask(h, now, id), now, addr), OpenFrom(h, now, addr));
    }
  }

  lemma IssueAgrees(m: map<string, Ceremony>, h: History, now: int, id: string, c: Ceremony)
    requires Agrees(m, h, now) && HandedInTime(h) && id !in h.issued
    ensures Agrees(m[id := c], Issue(h, id, c), now)
  {
    assert Open(Issue(h, id, c), now) <= Open(h, now) + {id};
    assert m[id := c].Keys == m.Keys + {id};
  }

  lemma IssueOpens(h: History, now: int, id: string, c: Ceremony)
    requires HandedInTime(h) && id !in h.issued && now < c.expires
    ensures Open(Issue(h, id, c), now) == Open(h, now) + {id}
  {
  }

  lemma OneMore(m: map<string, Ceremony>, id: string, c: Ceremony)
    ensures |m[id := c]| <= |m| + 1
  {
    FewerInSubset(m[id := c].Keys, m.Keys + {id});
  }

  lemma AskAgrees(m: map<string, Ceremony>, h: History, clock: int, now: int, id: string)
    requires Agrees(m, h, clock) && clock <= now
    ensures Agrees(m - {id}, Ask(h, now, id), now)
    ensures id in m && now < m[id].expires <==> id in Open(h, now)
    ensures |m - {id}| <= |m|
  {
    assert Open(h, now) <= Open(h, clock);
    FewerInSubset((m - {id}).Keys, m.Keys);
  }

  // ------------------------------------------------------------------ the sweep

  function Counted(m: map<string, Ceremony>, todo: set<string>, addr: string): set<string> {
    set id | id in m && id !in todo && m[id].addr == addr
  }

  /** Part of the table has been swept, and what stays of it from one address counted. */
  ghost predicate Sweeping(m: map<string, Ceremony>, h: History, now: int, todo: set<string>, addr: string, open: nat) {
    && |m| <= CEREMONY_CAP && Agrees(m, h, now) && todo <= m.Keys
    && (forall id :: id in m && id !in todo ==> now < m[id].expires)
    && open == |Counted(m, todo, addr)|
  }

  lemma SweepStarts(m: map<string, Ceremony>, h: History, clock: int, now: int, addr: string)
    requires |m| <= CEREMONY_CAP && Agrees(m, h, clock) && clock <= now
    ensures Sweeping(m, h, now, m.Keys, addr, 0)
  {
    assert Open(h, now) <= Open(h, clock);
    assert Counted(m, m.Keys, addr) == {};
  }

  lemma SweepDrops(m: map<string, Ceremony>, h: History, now: int, todo: set<string>, addr: string, open: nat,
                   k: string)
    requires Sweeping(m, h, now, todo, addr, open) && k in todo && now >= m[k].expires
    ensures Sweeping(m - {k}, h, now, todo - {k}, addr, open)
  {
    FewerInSubset((m - {k}).Keys, m.Keys);
    assert Counted(m - {k}, todo - {k}, addr) == Counted(m, todo, addr);
  }

  lemma SweepKeeps(m: map<string, Ceremony>, h: History, now: int, todo: set<string>, addr: string, open: nat,
                   k: string)
    requires Sweeping(m, h, now, todo, addr, open) && k in todo && now < m[k].expires
    ensures Sweeping(m, h, now, todo - {k}, addr, if m[k].addr == addr then open + 1 else open)
  {
    if m[k].addr == addr {
      assert Counted(m, todo - {k}, addr) == Counted(m, todo, addr) + {k};
    } else {
      assert Counted(m, todo - {k}, addr) == Counted(m, todo, addr);
    }
  }

  lemma SweepEnds(m: map<string, Ceremony>, h: History, now: int, addr: string, open: nat)
    requires Sweeping(m, h, now, {}, addr, open)
    ensures m.Keys == Open(h, now) && open == |OpenFrom(h, now, addr)|
  {
    assert Counted(m, {}, addr) == OpenFrom(h, now, addr);
  }

  class Ceremonies {
    var m: map<string, Ceremony>
    ghost var history: History
    ghost var clock: int

    ghost predicate Valid()
      reads this
    {
      |m| <= CEREMONY_CAP && Agrees(m, history, clock) && WithinBounds(history, clock) && HandedInTime(history)
    }

    constructor ()
      ensures Valid() && history == History(map[], {}, map[])
    {
      m, history, clock := map[], History(map[], {}, map[]), 0;
    }

    /** Drops what has expired, counting what stays from one address. */
    method Swept(now: int, addr: string) returns (open: nat)
      requires Valid() && clock <= now
      modifies this`m
      ensures |m| <= CEREMONY_CAP && Agrees(m, history, now)
      ensures m.Keys == Open(history, now) && open == |OpenFrom(history, now, addr)|
    {
      SweepStarts(m, history, clock, now, addr);
      open := 0;
      var todo := m.Keys;
      while todo != {}
        invariant Sweeping(m, history, now, todo, addr, open)
        decreases |todo|
      {
        var k :| k in todo;
        var v := m[k];
        if now >= v.expires {
          SweepDrops(m, history, now, todo, addr, open, k);
          m := m - {k};
        } else {
          SweepKeeps(m, history, now, todo, addr, open, k);
          if v.addr == addr {
            open := open + 1;
          }
        }
        todo := todo - {k};
      }
      SweepEnds(m, history, now, addr, open);
    }

    /**
     Starts a ceremony, unless its token could not be made or too many are open, in all or from its address. Open is
     by the whole history, though the table forgets what expired.
     */
    method Put(now: int, token: Option<string>, session: nat, addr: string) returns (r: Started)
      requires Valid() && clock <= now
      requires token.Some? ==> token.value !in history.issued
      modifies this
      ensures Valid() && old(clock) <= clock <= now
      ensures r.TokenFailed? <==> token.None?
      ensures r.RateLimited? <==>
              token.Some? &&
              (|Open(old(history), now)| >= CEREMONY_CAP ||
               |OpenFrom(old(history), now, addr)| >= CEREMONIES_PER_ADDRESS)
      ensures r.Id? ==> r.id == token.value
      ensures history == if r.Id? then Issue(old(history), r.id, Ceremony(session, addr, now + CEREMONY_TTL))
                         else old(history)
      ensures token.None? ==> m == old(m)
      ensures token.Some? ==> m.Keys == Open(history, now)
    {
      if token.None? {
        return TokenFailed;
      }
      var id := token.value;
      var open := Swept(now, addr);
      LaterBounds(history, clock, now);
      clock := now;
      if |m| >= CEREMONY_CAP || open >= CEREMONIES_PER_ADDRESS {
        return RateLimited;
      }
      var c := Ceremony(session, addr, now + CEREMONY_TTL);
      IssueKeepsBounds(history, now, id, c);
      IssueAgrees(m, history, now, id, c);
      OneMore(m, id, c);
      IssueOpens(history, now, id, c);
      m := m[id := c];
      history := Issue(history, id, c);
      r := Id(id);
    }

    /**
     Hands a ceremony out exactly when it was started, was not asked for before and has not expired; the id is spent
     either way.
     */
    method Take(now: int, id: string) returns (c: Option<Ceremony>, ok: bool)
      requires Valid() && clock <= now
      modifies this
      ensures Valid() && clock == now
      ensures ok <==> id in Open(old(history), now)
      ensures ok ==> c == Some(old(history).issued[id]) && id !in old(history).handed
      ensures history == Ask(old(history), now, id)
      ensures id !in Open(history, now) && m == old(m) - {id}
    {
      c := if id in m then Some(m[id]) else None;
      LaterBounds(history, clock, now);
      AskKeepsBounds(history, now, id);
      AskAgrees(m, history, clock, now, id);
      m := m - {id};
      ok := c.Some? && now < c.value.expires;
      history := Ask(history, now, id);
      clock := now;
    }
  }

  // ------------------------------------------------------------------ whole runs

  /** What the calls of a run did: a ceremony started under a fresh id, or an id asked for. */
  datatype Call = Start(id: string, ceremony: Ceremony) | Finish(id: string, now: int)

  ghost predicate Follows(h: History, call: Call, z: History) {
    match call
    case Start(id, c) => id !in h.issued && z == Issue(h, id, c)
    case Finish(id, now) => z == Ask(h, now, id)
  }

  ghost predicate IsRun(hs: seq<History>, calls: seq<Call>) {
    && |hs| == |calls| + 1
    && HandedInTime(hs[0])
    && forall k :: 0 <= k < |calls| ==> Follows(hs[k], calls[k], hs[k + 1])
  }

  lemma {:induction false} AskedStaysAsked(hs: seq<History>, calls: seq<Call>, i: nat, j: nat, id: string)
    requires IsRun(hs, calls) && i <= j < |hs| && id in hs[i].asked
    ensures id in hs[j].asked
    decreases j
  {
    if i < j {
      AskedStaysAsked(hs, calls, i, j - 1, id);
      assert Follows(hs[j - 1], calls[j - 1], hs[j]);
    }
  }

  /** Over any run a ceremony is handed out at most once. */
  lemma HandedOutOnce(hs: seq<History>, calls: seq<Call>, i: nat, j: nat)
    requires IsRun(hs, calls) && i < j < |calls| && calls[i].Finish? && calls[j].Finish? && calls[i].id == calls[j].id
    ensures calls[i].id in Open(hs[i], calls[i].now) ==> calls[j].id !in Open(hs[j], calls[j].now)
  {
    assert Follows(hs[i], calls[i], hs[i + 1]);
    if calls[i].id in Open(hs[i], calls[i].now) { AskedStaysAsked(hs, calls, i + 1, j, calls[i].id); }
  }
}
