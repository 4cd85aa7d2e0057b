/** rateLimited (telegram/commands.go): a cooldown per chat in front of the
    /help and /score commands. The table lastCmdRequest maps a chat id to the
    time of the last call that was let through; times are integers (Go's
    time.Time at nanosecond resolution). */
module RateLimit {
  import opened Optional

  type Cooldowns = map<string, int>

  /** Whether the call is ignored, and the table afterwards. */
  datatype Verdict = Verdict(limited: bool, last: Cooldowns)

  /** rateLimited(cmd, chatID, duration) called at time now. The command name
      is not part of the key: every command of a chat shares one cooldown. */
  function RateLimited(last: Cooldowns, cmd: string, chatID: string, now: int, duration: int): (r: Verdict)
    ensures !r.limited <==> chatID !in last || last[chatID] + duration <= now
    ensures r.limited ==> r.last == last
    ensures !r.limited ==> r.last == last[chatID := now]
  {
    if chatID in last && now < last[chatID] + duration then Verdict(true, last)
    else Verdict(false, last[chatID := now])
  }

  /** The command argument never changes the verdict. */
  lemma CommandIgnored(last: Cooldowns, cmd1: string, cmd2: string, chatID: string, now: int, duration: int)
    ensures RateLimited(last, cmd1, chatID, now, duration) == RateLimited(last, cmd2, chatID, now, duration)
  {
  }

  /** Once /help is served for a chat, /score in the same chat is ignored for
      the rest of the cooldown, and the other way round. */
  lemma SharedCooldown(last: Cooldowns, chatID: string, t: int, t': int, duration: int)
    requires !RateLimited(last, "help", chatID, t, duration).limited
    requires t <= t' < t + duration
    ensures RateLimited(RateLimited(last, "help", chatID, t, duration).last, "score", chatID, t', duration).limited
  {
  }

  /** A chat's calls never affect another chat's entry. */
  lemma OtherChatsUntouched(last: Cooldowns, cmd: string, chatID: string, other: string, now: int, duration: int)
    requires other != chatID
    ensures var r := RateLimited(last, cmd, chatID, now, duration).last;
      (other in r <==> other in last) && (other in last ==> r[other] == last[other])
  {
  }

  /** The time the cooldown of calls[i] is measured from: the last call
      before it that was let through, or the table's entry when there was
      none. */
  function Stamp(last0: Cooldowns, chatID: string, times: seq<int>, limited: seq<bool>, i: nat): Option<int>
    requires i <= |times| && i <= |limited|
    decreases i
  {
    if i == 0 then (if chatID in last0 then Some(last0[chatID]) else None)
    else if !limited[i - 1] then Some(times[i - 1])
    else Stamp(last0, chatID, times, limited, i - 1)
  }

  lemma {:induction false} StampPrefix(last0: Cooldowns, chatID: string, times: seq<int>, limited: seq<bool>, extra: seq<bool>, i: nat)
    requires i <= |times| && i <= |limited|
    ensures Stamp(last0, chatID, times, limited + extra, i) == Stamp(last0, chatID, times, limited, i)
    decreases i
  {
    if i > 0 {
      assert (limited + extra)[i - 1] == limited[i - 1];
      StampPrefix(last0, chatID, times, limited, extra, i - 1);
    }
  }

  /** Call i of a run was ignored exactly when it fell within the cooldown of
      its stamp. */
  predicate Decided(last0: Cooldowns, chatID: string, times: seq<int>, limited: seq<bool>, duration: int, i: nat)
    requires i < |times| && i < |limited|
  {
    var stamp := Stamp(last0, chatID, times, limited, i);
    limited[i] <==> stamp.Some? && times[i] < stamp.value + duration
  }

  /** The table after the first i calls of a run: the stamp the next call
      would be measured from, stored under the chat. */
  predicate TableAfter(last0: Cooldowns, chatID: string, times: seq<int>, limited: seq<bool>, i: nat, last: Cooldowns)
    requires i <= |times| && i <= |limited|
  {
    var stamp := Stamp(last0, chatID, times, limited, i);
    && (stamp.None? ==> last == last0 && chatID !in last0)
    && (stamp.Some? ==> last == last0[chatID := stamp.value])
  }

  /** A run of calls for one chat at the given times, with whatever command
      names: call i is ignored exactly when it falls within the cooldown of
      the last call let through before it, and the table ends up holding the
      time of the last call let through. */
  method Replay(last0: Cooldowns, chatID: string, cmds: seq<string>, times: seq<int>, duration: int)
    returns (limited: seq<bool>, last: Cooldowns)
    requires |cmds| == |times|
    ensures |limited| == |times|
    ensures forall i :: 0 <= i < |times| ==> Decided(last0, chatID, times, limited, duration, i)
    ensures TableAfter(last0, chatID, times, limited, |times|, last)
  {
    limited := [];
    last := last0;
    var i := 0;
    while i < |times|
      invariant 0 <= i <= |times| && |limited| == i
      invariant forall j :: 0 <= j < i ==> Decided(last0, chatID, times, limited, duration, j)
      invariant TableAfter(last0, chatID, times, limited, i, last)
    {
      var v := RateLimited(last, cmds[i], chatID, times[i], duration);
      ReplayStep(last0, chatID, times, limited, duration, last, v);
      limited := limited + [v.limited];
      last := v.last;
      i := i + 1;
    }
  }

  /** One more call keeps the run's record of earlier calls and decides the
      new one by its stamp. */
  lemma ReplayStep(last0: Cooldowns, chatID: string, times: seq<int>, limited: seq<bool>, duration: int,
                   last: Cooldowns, v: Verdict)
    requires |limited| < |times|
    requires forall j :: 0 <= j < |limited| ==> Decided(last0, chatID, times, limited, duration, j)
    requires TableAfter(last0, chatID, times, limited, |limited|, last)
    requires v == RateLimited(last, "", chatID, times[|limited|], duration)
    ensures forall j :: 0 <= j <= |limited| ==> Decided(last0, chatID, times, limited + [v.limited], duration, j)
    ensures TableAfter(last0, chatID, times, limited + [v.limited], |limited| + 1, v.last)
  {
    var i := |limited|;
    var next := limited + [v.limited];
    forall j | 0 <= j <= i
      ensures Decided(last0, chatID, times, next, duration, j)
    {
      StampPrefix(last0, chatID, times, limited, [v.limited], j);
      if j < i {
        assert next[j] == limited[j];
        assert Decided(last0, chatID, times, limited, duration, j);
      }
    }
    assert next[i] == v.limited;
    StampPrefix(last0, chatID, times, limited, [v.limited], i);
    if v.limited {
      assert Stamp(last0, chatID, times, next, i + 1) == Stamp(last0, chatID, times, limited, i);
    } else {
      assert Stamp(last0, chatID, times, next, i + 1) == Some(times[i]);
      assert v.last == last0[chatID := times[i]];
    }
  }
}
