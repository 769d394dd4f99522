/** What a scripted endpoint yields when it is polled, and what a message
    tracker derives from the messages it sees: record and byte counts and the
    latest checkpoint. */
module MessageStreams {
  import opened Wrappers
  import opened Protocol

  /** The answer to poll number `n` of a scripted stream: the script's entry,
      or nothing once the script is exhausted. */
  function PollAt(script: seq<Option<AirbyteMessage>>, n: nat): Option<AirbyteMessage>
  {
    if n < |script| then script[n] else None
  }

  /** The messages the first `n` polls yield, in poll order; empty polls
      yield nothing. */
  function Polled(script: seq<Option<AirbyteMessage>>, n: nat): (msgs: seq<AirbyteMessage>)
    ensures |msgs| <= n
  {
    if n == 0 then []
    else
      var last := PollAt(script, n - 1);
      Polled(script, n - 1) + (if last.Some? then [last.value] else [])
  }

  /** Applies the mapper's message function to each message, keeping order. */
  function MapMessages(f: AirbyteMessage -> AirbyteMessage, msgs: seq<AirbyteMessage>): (out: seq<AirbyteMessage>)
    ensures |out| == |msgs|
    ensures forall i :: 0 <= i < |msgs| ==> out[i] == f(msgs[i])
  {
    seq(|msgs|, i requires 0 <= i < |msgs| => f(msgs[i]))
  }

  /** Number of record messages. */
  function RecordCount(msgs: seq<AirbyteMessage>): nat
  {
    if msgs == [] then 0
    else RecordCount(msgs[..|msgs| - 1]) + (if msgs[|msgs| - 1].Record? then 1 else 0)
  }

  /** Total payload size of the record messages. */
  function ByteCount(msgs: seq<AirbyteMessage>): nat
  {
    if msgs == [] then 0
    else ByteCount(msgs[..|msgs| - 1]) + (if msgs[|msgs| - 1].Record? then |msgs[|msgs| - 1].data| else 0)
  }

  /** The state of the last checkpoint message, if there is one. */
  function LatestState(msgs: seq<AirbyteMessage>): Option<State>
  {
    if msgs == [] then None
    else if msgs[|msgs| - 1].Checkpoint? then Some(msgs[|msgs| - 1].state)
    else LatestState(msgs[..|msgs| - 1])
  }

  // ---------------------------------------------------------------------------
  // Properties

  /** A message is polled exactly when one of the first `n` script entries
      holds it. */
  lemma {:induction false} PolledMembers(script: seq<Option<AirbyteMessage>>, n: nat, m: AirbyteMessage)
    ensures m in Polled(script, n) <==> exists i :: 0 <= i < n && i < |script| && script[i] == Some(m)
  {
    if n > 0 {
      PolledMembers(script, n - 1, m);
      var last := PollAt(script, n - 1);
      assert Polled(script, n) == Polled(script, n - 1) + (if last.Some? then [last.value] else []);
      if exists i :: 0 <= i < n && i < |script| && script[i] == Some(m) {
        var i :| 0 <= i < n && i < |script| && script[i] == Some(m);
        if i < n - 1 {
          assert exists j :: 0 <= j < n - 1 && j < |script| && script[j] == Some(m);
        }
      }
    }
  }

  /** Polling an exhausted script yields nothing new. */
  lemma {:induction false} PolledExhausted(script: seq<Option<AirbyteMessage>>, n: nat)
    requires n >= |script|
    ensures Polled(script, n) == Polled(script, |script|)
  {
    if n > |script| {
      PolledExhausted(script, n - 1);
    }
  }

  /** A script without empty polls is yielded as it is. */
  lemma {:induction false} PolledAllPresent(script: seq<Option<AirbyteMessage>>, n: nat)
    requires n <= |script|
    requires forall i :: 0 <= i < |script| ==> script[i].Some?
    ensures |Polled(script, n)| == n
    ensures forall i :: 0 <= i < n ==> Polled(script, n)[i] == script[i].value
  {
    if n > 0 {
      PolledAllPresent(script, n - 1);
    }
  }

  /** Mapping a stream message by message: one more message in, one more
      mapped message out, at the end. */
  lemma MapMessagesAppend(f: AirbyteMessage -> AirbyteMessage, msgs: seq<AirbyteMessage>, m: AirbyteMessage)
    ensures MapMessages(f, msgs + [m]) == MapMessages(f, msgs) + [f(m)]
  {
    var lhs, rhs := MapMessages(f, msgs + [m]), MapMessages(f, msgs) + [f(m)];
    assert |lhs| == |rhs|;
    forall i | 0 <= i < |lhs| ensures lhs[i] == rhs[i] {
      if i < |msgs| {
        assert (msgs + [m])[i] == msgs[i];
      }
    }
  }

  /** The record count never exceeds the number of messages, and equals it
      exactly when every message is a record. */
  lemma {:induction false} RecordCountBound(msgs: seq<AirbyteMessage>)
    ensures RecordCount(msgs) <= |msgs|
    ensures RecordCount(msgs) == |msgs| <==> forall i :: 0 <= i < |msgs| ==> msgs[i].Record?
  {
    if msgs != [] {
      var init := msgs[..|msgs| - 1];
      RecordCountBound(init);
      if forall i :: 0 <= i < |msgs| ==> msgs[i].Record? {
        assert forall i :: 0 <= i < |init| ==> init[i].Record? by {
          forall i | 0 <= i < |init| ensures init[i].Record? {
            assert init[i] == msgs[i];
          }
        }
      } else {
        var i :| 0 <= i < |msgs| && !msgs[i].Record?;
        if i < |init| {
          assert init[i] == msgs[i];
        }
      }
    }
  }

  /** Counting distributes over concatenation. */
  lemma {:induction false} CountsAppend(a: seq<AirbyteMessage>, b: seq<AirbyteMessage>)
    ensures RecordCount(a + b) == RecordCount(a) + RecordCount(b)
    ensures ByteCount(a + b) == ByteCount(a) + ByteCount(b)
  {
    if b != [] {
      var init := b[..|b| - 1];
      assert (a + b)[..|a + b| - 1] == a + init;
      assert (a + b)[|a + b| - 1] == b[|b| - 1];
      CountsAppend(a, init);
    } else {
      assert a + b == a;
    }
  }

  /** The latest state is absent exactly when no checkpoint was seen, and
      otherwise is the state of some checkpoint that was seen. */
  lemma {:induction false} LatestStateSeen(msgs: seq<AirbyteMessage>)
    ensures LatestState(msgs).None? <==> forall i :: 0 <= i < |msgs| ==> !msgs[i].Checkpoint?
    ensures LatestState(msgs).Some? ==> Checkpoint(LatestState(msgs).value) in msgs
  {
    if msgs != [] {
      var init := msgs[..|msgs| - 1];
      LatestStateSeen(init);
      if !msgs[|msgs| - 1].Checkpoint? {
        if LatestState(init).Some? {
          var i :| 0 <= i < |init| && init[i] == Checkpoint(LatestState(init).value);
          assert msgs[i] == init[i];
        }
        if exists i :: 0 <= i < |msgs| && msgs[i].Checkpoint? {
          var i :| 0 <= i < |msgs| && msgs[i].Checkpoint?;
          assert init[i] == msgs[i];
        }
      }
    }
  }

  /** A later checkpoint replaces an earlier one; records leave the latest
      state as it was. */
  lemma {:induction false} LatestStateAppend(a: seq<AirbyteMessage>, b: seq<AirbyteMessage>)
    ensures LatestState(a + b) == if LatestState(b).Some? then LatestState(b) else LatestState(a)
  {
    if b != [] {
      var init := b[..|b| - 1];
      assert (a + b)[..|a + b| - 1] == a + init;
      assert (a + b)[|a + b| - 1] == b[|b| - 1];
      LatestStateAppend(a, init);
    } else {
      assert a + b == a;
    }
  }

  /** Polling longer only extends what was yielded: the first `n` polls
      yield a prefix of what the first `m` yield. */
  lemma {:induction false} PolledPrefix(script: seq<Option<AirbyteMessage>>, n: nat, m: nat)
    requires n <= m
    ensures Polled(script, n) <= Polled(script, m)
  {
    if n < m {
      PolledPrefix(script, n, m - 1);
    }
  }

  /** Mapping keeps prefixes. */
  lemma MapMessagesPrefix(f: AirbyteMessage -> AirbyteMessage, a: seq<AirbyteMessage>, b: seq<AirbyteMessage>)
    requires a <= b
    ensures MapMessages(f, a) <= MapMessages(f, b)
  {
    assert forall i :: 0 <= i < |a| ==> a[i] == b[i];
  }
}
