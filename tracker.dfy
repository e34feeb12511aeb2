/**
 The message handler: a dedup gate on the transaction's first signature, followed by the scan
 for the first qualifying token transfer.
 */
module Tracker {
  import opened Wrappers
  import opened Transactions
  import opened Alerts

  /** What handling one message leaves behind: the new set of seen signatures and the alert
      raised, if any. */
  datatype Step = Step(seen: set<string>, alert: Option<Alert>)

  /** Handling one message, as a function of the signatures seen before it. A message without
      a transaction changes nothing; a known signature changes nothing; a new signature is
      recorded before its instructions are scanned, so it is recorded whether or not it alerts. */
  function Handle(seen: set<string>, msg: Message): Step
  {
    match msg.result
    case None => Step(seen, None)
    case Some(tx) =>
      if tx.signature in seen then Step(seen, None)
      else Step(seen + {tx.signature}, Detect(tx))
  }

  /** What handling a stream of messages in arrival order leaves behind: the final set of seen
      signatures and every alert raised, in order. */
  datatype Trace = Trace(seen: set<string>, alerts: seq<Alert>)

  function Run(seen: set<string>, msgs: seq<Message>): Trace
    decreases msgs
  {
    if msgs == [] then Trace(seen, [])
    else
      var step := Handle(seen, msgs[0]);
      var rest := Run(step.seen, msgs[1..]);
      Trace(rest.seen, (if step.alert.Some? then [step.alert.value] else []) + rest.alerts)
  }

  /** The signatures of the transactions a stream carries. */
  function Signatures(msgs: seq<Message>): set<string>
  {
    set i | 0 <= i < |msgs| && msgs[i].result.Some? :: msgs[i].result.value.signature
  }

  class Watcher {
    /** The signatures of every transaction handled so far. */
    var seen: set<string>

    constructor ()
      ensures seen == {}
    {
      seen := {};
    }

    /** The `message` handler. */
    method OnMessage(msg: Message) returns (alert: Option<Alert>)
      modifies this
      ensures Step(seen, alert) == Handle(old(seen), msg)
      ensures msg.result.None? ==> seen == old(seen) && alert == None
      ensures msg.result.Some? ==> seen == old(seen) + {msg.result.value.signature}
      ensures msg.result.Some? && msg.result.value.signature in old(seen) ==> alert == None
      ensures msg.result.Some? && msg.result.value.signature !in old(seen) ==>
                alert == FirstAlert(Flatten(msg.result.value), Tokens, MinAlert,
                                    msg.result.value.signature)
    {
      if msg.result.None? {
        return None;
      }
      var tx := msg.result.value;
      var sig := tx.signature;
      if sig in seen {
        return None;
      }
      seen := seen + {sig};

      var instructions := Flatten(tx);
      var i := 0;
      while i < |instructions|
        invariant 0 <= i <= |instructions|
        invariant seen == old(seen) + {sig}
        invariant FirstAlert(instructions, Tokens, MinAlert, sig)
                  == FirstAlert(instructions[i..], Tokens, MinAlert, sig)
      {
        var ix := instructions[i];
        assert instructions[i..][1..] == instructions[i + 1..];
        if ix.program != "spl-token" || ix.parsed.None? || ix.parsed.value.kind != "transfer" {
          i := i + 1;
          continue;
        }
        var mint := ix.parsed.value.mint;
        var amountRaw := ix.parsed.value.amount;
        var j := 0;
        while j < |Tokens|
          invariant 0 <= j <= |Tokens|
          invariant FirstMatch(ix, Tokens, MinAlert) == FirstMatch(ix, Tokens[j..], MinAlert)
        {
          var t := Tokens[j];
          assert Tokens[j..][1..] == Tokens[j + 1..];
          if mint == Some(t.mint) {
            if amountRaw.Some? && amountRaw.value >= MinAlert * Pow10(t.decimals) {
              alert := Some(Alert(t.symbol, Scaled(amountRaw.value, t), sig));
              return;
            }
          }
          j := j + 1;
        }
        i := i + 1;
      }
      alert := None;
    }
  }

  // ---------------------------------------------------------------------------
  // Streams of messages
  // ---------------------------------------------------------------------------

  /** An alert carries the signature of the transaction it was raised for. */
  lemma DetectSignature(tx: Transaction)
    ensures Detect(tx).Some? ==> Detect(tx).value.signature == tx.signature
  {
    FirstAlertIsFirst(Flatten(tx), Tokens, MinAlert, tx.signature);
  }

  /** After a stream, the seen set is the initial one plus every signature the stream carried. */
  lemma {:induction false} RunSeen(seen: set<string>, msgs: seq<Message>)
    ensures Run(seen, msgs).seen == seen + Signatures(msgs)
    decreases msgs
  {
    if msgs != [] {
      var step := Handle(seen, msgs[0]);
      RunSeen(step.seen, msgs[1..]);
      SignaturesCons(msgs);
    }
  }

  lemma SignaturesCons(msgs: seq<Message>)
    requires msgs != []
    ensures Signatures(msgs) == Signatures(msgs[1..]) +
              (if msgs[0].result.Some? then {msgs[0].result.value.signature} else {})
  {
    var tail := msgs[1..];
    forall s | s in Signatures(msgs)
      ensures s in Signatures(tail) || (msgs[0].result.Some? && s == msgs[0].result.value.signature)
    {
      var i :| 0 <= i < |msgs| && msgs[i].result.Some? && msgs[i].result.value.signature == s;
      if i > 0 {
        assert tail[i - 1] == msgs[i];
      }
    }
    forall s | s in Signatures(tail) ensures s in Signatures(msgs) {
      var i :| 0 <= i < |tail| && tail[i].result.Some? && tail[i].result.value.signature == s;
      assert msgs[i + 1] == tail[i];
    }
  }

  /** Every alert of a stream is for a signature the stream carried and that was not seen before
      it, and no two alerts share a signature: a transaction alerts at most once however often
      it is delivered. */
  lemma {:induction false} RunAlertsFresh(seen: set<string>, msgs: seq<Message>)
    ensures forall i :: 0 <= i < |Run(seen, msgs).alerts| ==>
              Run(seen, msgs).alerts[i].signature !in seen &&
              Run(seen, msgs).alerts[i].signature in Signatures(msgs)
    ensures forall i, j :: 0 <= i < j < |Run(seen, msgs).alerts| ==>
              Run(seen, msgs).alerts[i].signature != Run(seen, msgs).alerts[j].signature
    decreases msgs
  {
    if msgs != [] {
      var step := Handle(seen, msgs[0]);
      var rest := Run(step.seen, msgs[1..]);
      RunAlertsFresh(step.seen, msgs[1..]);
      SignaturesCons(msgs);
      var head := if step.alert.Some? then [step.alert.value] else [];
      var alerts := Run(seen, msgs).alerts;
      assert alerts == head + rest.alerts;
      if step.alert.Some? {
        var tx := msgs[0].result.value;
        DetectSignature(tx);
        assert step.alert.value.signature == tx.signature;
        assert tx.signature in step.seen;
        forall i | 1 <= i < |alerts|
          ensures alerts[i] == rest.alerts[i - 1]
        {
        }
      } else {
        assert alerts == rest.alerts;
      }
    }
  }

  /** A stream whose signatures have all been seen raises nothing and changes nothing. */
  lemma {:induction false} RunQuiet(seen: set<string>, msgs: seq<Message>)
    requires Signatures(msgs) <= seen
    ensures Run(seen, msgs) == Trace(seen, [])
  {
    if msgs != [] {
      SignaturesCons(msgs);
      RunQuiet(seen, msgs[1..]);
    }
  }

  /** Delivering the same stream a second time raises no further alert. */
  lemma Replay(seen: set<string>, msgs: seq<Message>)
    ensures Run(seen, msgs + msgs).alerts == Run(seen, msgs).alerts
  {
    RunSeen(seen, msgs);
    RunQuiet(Run(seen, msgs).seen, msgs);
    RunConcat(seen, msgs, msgs);
  }

  /** Handling two streams one after the other is handling their concatenation. */
  lemma {:induction false} RunConcat(seen: set<string>, xs: seq<Message>, ys: seq<Message>)
    ensures Run(seen, xs + ys)
            == Trace(Run(Run(seen, xs).seen, ys).seen,
                     Run(seen, xs).alerts + Run(Run(seen, xs).seen, ys).alerts)
    decreases xs
  {
    if xs == [] {
      assert xs + ys == ys;
    } else {
      var step := Handle(seen, xs[0]);
      assert (xs + ys)[0] == xs[0];
      assert (xs + ys)[1..] == xs[1..] + ys;
      RunConcat(step.seen, xs[1..], ys);
    }
  }

  /** The class and the stream function agree: handling messages one call at a time yields
      the alerts of `Run`. */
  method HandleAll(w: Watcher, msgs: seq<Message>) returns (alerts: seq<Alert>)
    modifies w
    ensures Trace(w.seen, alerts) == Run(old(w.seen), msgs)
  {
    alerts := [];
    var i := 0;
    while i < |msgs|
      invariant 0 <= i <= |msgs|
      invariant Run(old(w.seen), msgs)
                == Trace(Run(w.seen, msgs[i..]).seen, alerts + Run(w.seen, msgs[i..]).alerts)
    {
      ghost var before := w.seen;
      assert msgs[i..][0] == msgs[i] && msgs[i..][1..] == msgs[i + 1..];
      var a := w.OnMessage(msgs[i]);
      ghost var rest := Run(w.seen, msgs[i + 1..]);
      var head := if a.Some? then [a.value] else [];
      assert Run(before, msgs[i..]) == Trace(rest.seen, head + rest.alerts);
      assert alerts + (head + rest.alerts) == (alerts + head) + rest.alerts;
      alerts := alerts + head;
      i := i + 1;
    }
  }
}
