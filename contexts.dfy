/** The server's conversation-context store: a table from socket id to that session's
    history array, seeded with the system prompt, grown one entry per accepted transcript,
    capped at eleven entries with the seed kept, and emptied by reset, by the disconnect
    timer and by the hourly sweep. */
module Contexts {
  import opened Options
  import opened Text
  import opened Chat
  import opened Models

  /** The length a history is cut back to: the system prompt and ten more entries. */
  const MaxHistory: nat := 11
  /** The age after which the sweep drops a session, in milliseconds. */
  const Hour: int := 3600000

  const ResetMessage: string := "Conversation context has been reset"

  function Min(a: int, b: int): int { if a <= b then a else b }

  /** `Array.prototype.splice(start, count)` as it removes: both bounds are clamped to the
      array, the entries before `start` and after the removed run are kept. */
  function Splice<T>(s: seq<T>, start: nat, count: nat): (r: seq<T>)
    ensures var a := Min(start, |s|); var b := Min(a + count, |s|);
            |r| == |s| - (b - a) && r[..a] == s[..a] && r[a..] == s[b..]
  {
    var a := Min(start, |s|);
    var b := Min(a + count, |s|);
    s[..a] + s[b..]
  }

  /** The last `n` entries of `s` (all of them when there are fewer). */
  function LastN<T>(s: seq<T>, n: nat): (r: seq<T>)
    ensures |r| == Min(|s|, n) && r == s[|s| - |r|..]
  {
    if |s| <= n then s else s[|s| - n..]
  }

  /** `if (context.length > 11) context.splice(1, context.length - 11)`. */
  function Capped(s: seq<Msg>): seq<Msg> {
    if |s| > MaxHistory then Splice(s, 1, |s| - MaxHistory) else s
  }

  /** The table entry for `id`, as `userContexts.get(id)` reads it. */
  function Session(m: map<string, seq<Msg>>, id: string): (r: Option<seq<Msg>>)
    ensures r.Some? <==> id in m
    ensures r.Some? ==> r.value == m[id]
  {
    if id in m then Some(m[id]) else None
  }

  /** The array `manageConversationHistory` pushes onto: the stored one, or a fresh array
      holding only the seed. */
  function Base(ctx: Option<seq<Msg>>): seq<Msg> {
    match ctx
    case None => [Seed]
    case Some(c) => c
  }

  /** The history after `manageConversationHistory` pushes `m` onto the session whose
      stored array is `ctx`: never longer than eleven, ending with `m`, starting with the
      same entry as before, and exactly `[Seed, m]` for a session that did not exist. */
  function Appended(ctx: Option<seq<Msg>>, m: Msg): (r: seq<Msg>)
    ensures 1 <= |r| <= MaxHistory
    ensures r[|r| - 1] == m
    ensures Base(ctx) != [] ==> r[0] == Base(ctx)[0]
    ensures ctx.None? ==> r == [Seed, m]
  {
    Capped(Base(ctx) + [m])
  }

  /** The survivors of a push are the first entry followed by the last ten of the other
      entries and the new one, in their original order. */
  lemma SurvivorsAreLatest(ctx: Option<seq<Msg>>, m: Msg)
    requires Base(ctx) != []
    ensures Appended(ctx, m) == [Base(ctx)[0]] + LastN(Base(ctx)[1..] + [m], MaxHistory - 1)
  {
    var s := Base(ctx) + [m];
    assert s[1..] == Base(ctx)[1..] + [m];
    if |s| > MaxHistory {
      assert Splice(s, 1, |s| - MaxHistory) == [s[0]] + s[1..][|s| - MaxHistory..];
    } else {
      assert s == [s[0]] + s[1..];
    }
  }

  /** The entries after the first one of the new history are the last entries of the
      grown array, in place: none of them is invented or reordered. */
  lemma SurvivorsAreSuffix(ctx: Option<seq<Msg>>, m: Msg)
    ensures var s, r := Base(ctx) + [m], Appended(ctx, m);
            r[1..] == s[|s| - |r| + 1..]
  {
    CappedIsSuffix(Base(ctx) + [m]);
  }

  lemma CappedIsSuffix(s: seq<Msg>)
    requires s != []
    ensures var r := Capped(s);
            && |r| == Min(|s|, MaxHistory) && r[0] == s[0]
            && r[1..] == s[|s| - |r| + 1..]
  {
    if |s| > MaxHistory {
      assert Min(1, |s|) == 1 && Min(1 + (|s| - MaxHistory), |s|) == |s| - MaxHistory + 1;
    }
  }

  /** The history of a session that received exactly the pushes `ms`, oldest first,
      starting from no stored array. */
  function Replay(ms: seq<Msg>): Option<seq<Msg>> {
    if ms == [] then None else Some(Appended(Replay(ms[..|ms| - 1]), ms[|ms| - 1]))
  }

  lemma LastNSnoc<T>(s: seq<T>, x: T, n: nat)
    requires n >= 1
    ensures LastN(LastN(s, n) + [x], n) == LastN(s + [x], n)
  {
    if |s| > n {
      assert LastN(s, n) + [x] == (s + [x])[|s| - n..];
    }
  }

  /** However many transcripts a session receives, its history is the seed followed by
      the last ten of them, in order; in particular it never exceeds eleven entries and
      the seed is never evicted. */
  lemma {:induction false} ReplayKeepsLatest(ms: seq<Msg>)
    requires ms != []
    ensures Replay(ms) == Some([Seed] + LastN(ms, MaxHistory - 1))
  {
    var init, last := ms[..|ms| - 1], ms[|ms| - 1];
    assert ms == init + [last];
    if init == [] {
      assert Replay(ms) == Some(Appended(None, last));
    } else {
      ReplayKeepsLatest(init);
      var c := [Seed] + LastN(init, MaxHistory - 1);
      SurvivorsAreLatest(Some(c), last);
      assert c[1..] == LastN(init, MaxHistory - 1);
      LastNSnoc(init, last, MaxHistory - 1);
    }
  }

  /** A stored history as the store keeps it: the seed, at least one pushed entry, at most
      eleven entries, and a timestamp on every pushed one. */
  ghost predicate WellFormed(c: seq<Msg>) {
    && 2 <= |c| <= MaxHistory
    && c[0] == Seed
    && forall i :: 1 <= i < |c| ==> c[i].timestamp.Some?
  }

  /** A push keeps a stored history well formed, and creates a well-formed one. */
  lemma AppendKeepsWellFormed(ctx: Option<seq<Msg>>, m: Msg)
    requires ctx.Some? ==> WellFormed(ctx.value)
    requires m.timestamp.Some?
    ensures WellFormed(Appended(ctx, m))
  {
    SurvivorsAreSuffix(ctx, m);
    var s, r := Base(ctx) + [m], Appended(ctx, m);
    forall i | 1 <= i < |r| ensures r[i].timestamp.Some? {
      assert r[i] == r[1..][i - 1] == s[|s| - |r| + i];
    }
  }

  /** The sweep's test `lastMessage && (now - lastMessage.timestamp) > hour`: a session
      whose last entry has no timestamp compares NaN and is kept. */
  predicate Stale(c: seq<Msg>, now: int) {
    && c != []
    && c[|c| - 1].timestamp.Some?
    && now - c[|c| - 1].timestamp.value > Hour
  }

  /** The table the sweep leaves behind. */
  function Swept(m: map<string, seq<Msg>>, now: int): (r: map<string, seq<Msg>>)
    ensures forall id :: id in r <==> id in m && !Stale(m[id], now)
    ensures forall id :: id in r ==> r[id] == m[id]
  {
    map id | id in m && !Stale(m[id], now) :: m[id]
  }

  /** A second sweep at the same time removes nothing more. */
  lemma SweepIdempotent(m: map<string, seq<Msg>>, now: int)
    ensures Swept(Swept(m, now), now) == Swept(m, now)
  {
  }

  /** A session that received a transcript at time `t` survives every sweep up to an hour
      later, and a sweep more than an hour later removes it unless it received another. */
  lemma SweepAfterPush(ctx: Option<seq<Msg>>, m: Msg, now: int)
    requires m.timestamp.Some?
    ensures Stale(Appended(ctx, m), now) <==> now - m.timestamp.value > Hour
  {
  }

  /** The server's test `data.final && data.final.trim()`. */
  function Accepts(final: Option<string>): (ok: bool)
    ensures ok <==> final.Some? && !Blank(final.value)
  {
    if final.Some? then
      TrimEmptyIff(final.value);
      Trim(final.value) != ""
    else false
  }

  /** Every non-seed entry of every session is a user turn: nothing else is ever pushed. */
  ghost predicate UserTurnsOnly(m: map<string, seq<Msg>>) {
    forall id, i :: id in m && 1 <= i < |m[id]| ==> m[id][i].role == User
  }

  /** Pushing a user turn onto one session keeps every non-seed entry a user turn. */
  lemma PushKeepsUserTurns(m: map<string, seq<Msg>>, id: string, msg: Msg)
    requires UserTurnsOnly(m) && msg.role == User
    ensures UserTurnsOnly(m[id := Appended(Session(m, id), msg)])
  {
    var ctx := Session(m, id);
    SurvivorsAreSuffix(ctx, msg);
    var s, r := Base(ctx) + [msg], Appended(ctx, msg);
    forall i | 1 <= i < |r| ensures r[i].role == User {
      assert r[i] == r[1..][i - 1] == s[|s| - |r| + i];
    }
  }

  class Store {
    /** `userContexts`. */
    var contexts: map<string, seq<Msg>>

    ghost predicate Valid()
      reads this
    {
      forall id :: id in contexts ==> WellFormed(contexts[id])
    }

    constructor ()
      ensures Valid() && contexts == map[]
    {
      contexts := map[];
    }

    /** `manageConversationHistory(userId, message, role)` at time `now`: seeds the session
        when absent, pushes the timestamped entry, cuts back to eleven entries from index 1,
        and returns the session's array. No other session changes. */
    method ManageHistory(userId: string, message: string, role: Role, now: int)
      returns (context: seq<Msg>)
      requires Valid()
      modifies this
      ensures Valid()
      ensures context == Appended(Session(old(contexts), userId), Msg(role, message, Some(now)))
      ensures contexts == old(contexts)[userId := context]
    {
      ghost var before := Session(contexts, userId);
      if userId !in contexts {
        contexts := contexts[userId := [Seed]];
      }
      context := contexts[userId];
      context := context + [Msg(role, message, Some(now))];
      if |context| > MaxHistory {
        context := Splice(context, 1, |context| - MaxHistory);
      }
      contexts := contexts[userId := context];
      AppendKeepsWellFormed(before, Msg(role, message, Some(now)));
    }

    /** The `reset-context` handler: forgets the session (nothing happens to an absent one)
        and answers with the reset notice. */
    method Reset(socketId: string) returns (reply: string)
      requires Valid()
      modifies this
      ensures Valid()
      ensures contexts == old(contexts) - {socketId}
      ensures reply == ResetMessage
      ensures UserTurnsOnly(old(contexts)) ==> UserTurnsOnly(contexts)
    {
      contexts := contexts - {socketId};
      reply := ResetMessage;
    }

    /** The disconnect timer firing an hour after the disconnect: the session is deleted,
        whatever it received meanwhile, since the timer is never cancelled. */
    method Expire(socketId: string)
      requires Valid()
      modifies this
      ensures Valid()
      ensures contexts == old(contexts) - {socketId}
      ensures UserTurnsOnly(old(contexts)) ==> UserTurnsOnly(contexts)
    {
      contexts := contexts - {socketId};
    }

    /** The hourly sweep at time `now`: visits every session once and deletes those whose
        last entry is more than an hour old. */
    method Sweep(now: int)
      requires Valid()
      modifies this
      ensures Valid()
      ensures contexts == Swept(old(contexts), now)
      ensures UserTurnsOnly(old(contexts)) ==> UserTurnsOnly(contexts)
    {
      var pending := contexts.Keys;
      while pending != {}
        invariant pending <= contexts.Keys <= old(contexts).Keys
        invariant forall id :: id in contexts ==> contexts[id] == old(contexts)[id]
        invariant forall id :: id in old(contexts) && id !in pending ==>
                    (id in contexts <==> !Stale(old(contexts)[id], now))
        decreases pending
      {
        var id :| id in pending;
        if Stale(contexts[id], now) {
          contexts := contexts - {id};
        }
        pending := pending - {id};
      }
    }

    /** The `transcript` handler at time `now`. A transcript whose `final` is absent or
        blank is ignored. Otherwise its trimmed text is pushed as a user turn and the
        response (or the classified error) is computed from the updated history; no
        assistant turn is ever stored. `complete` stands for the provider SDKs. */
    method OnTranscript(socketId: string, final: Option<string>, model: Option<string>,
                        now: int, complete: Request -> Completion)
      returns (reply: Option<Event>)
      requires Valid()
      modifies this
      ensures Valid()
      ensures !Accepts(final) ==> contexts == old(contexts) && reply == None
      ensures Accepts(final) ==>
                && contexts == old(contexts)[socketId :=
                     Appended(Session(old(contexts), socketId), Msg(User, Trim(final.value), Some(now)))]
                && reply == Some(Respond(contexts[socketId], model, complete))
      ensures UserTurnsOnly(old(contexts)) ==> UserTurnsOnly(contexts)
    {
      if final.Some? && Trim(final.value) != "" {
        if UserTurnsOnly(contexts) {
          PushKeepsUserTurns(contexts, socketId, Msg(User, Trim(final.value), Some(now)));
        }
        var messages := ManageHistory(socketId, Trim(final.value), User, now);
        reply := Some(Respond(messages, model, complete));
      } else {
        reply := None;
      }
    }
  }

}
