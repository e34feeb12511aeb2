/**
 Which instruction of a transaction raises an alert: the first `spl-token` `transfer` whose
 mint is in the token table and whose amount, scaled by the token's decimals, reaches the
 minimum alert amount.
 */
module Alerts {
  import opened Wrappers
  import opened Transactions

  /** An entry of the token table: the symbol it is shown under, its mint address and the
      number of decimal places its raw amounts carry. */
  datatype Token = Token(symbol: string, mint: string, decimals: nat)

  const UsdtMint: string := "Es9vMFrzaCERmJfrF4H2FYD4KCoNkY11McCe8BenwNYB"
  const UsdcMint: string := "EPjFWdd5AufqSSqeM2qN1xzybapC8G4wEGGkZwyTDt1v"

  /** The token table, in the order the handler walks it. */
  const Tokens: seq<Token> := [Token("USDT", UsdtMint, 6), Token("USDC", UsdcMint, 6)]

  /** The smallest scaled amount that raises an alert. */
  const MinAlert: nat := 1

  /** The alert handed to the sender: token symbol, scaled amount and transaction signature. */
  datatype Alert = Alert(symbol: string, amount: real, signature: string)

  function Pow10(n: nat): (r: nat)
    ensures r >= 1
  {
    if n == 0 then 1 else 10 * Pow10(n - 1)
  }

  /** The raw amount in whole token units: `amountRaw / 10 ** decimals`, exactly. */
  function Scaled(raw: int, t: Token): real
  {
    raw as real / Pow10(t.decimals) as real
  }

  /** `amountRaw / 10 ** decimals >= MIN_ALERT`, stated over the integers. */
  predicate MeetsThreshold(raw: int, t: Token, minAlert: nat)
  {
    raw >= minAlert * Pow10(t.decimals)
  }

  /** The two filters every instruction passes before its mint is looked at. */
  predicate IsTokenTransfer(ix: Instruction)
  {
    ix.program == "spl-token" && ix.parsed.Some? && ix.parsed.value.kind == "transfer"
  }

  /** `ix` is a token transfer of token `t` whose amount reaches the threshold. */
  predicate MatchesToken(ix: Instruction, t: Token, minAlert: nat)
  {
    IsTokenTransfer(ix) && ix.parsed.value.mint == Some(t.mint) &&
    ix.parsed.value.amount.Some? && MeetsThreshold(ix.parsed.value.amount.value, t, minAlert)
  }

  /** The table entry the inner loop stops at: the first token that `ix` matches. */
  function FirstMatch(ix: Instruction, tokens: seq<Token>, minAlert: nat): (r: Option<Token>)
    ensures r.None? <==> forall j :: 0 <= j < |tokens| ==> !MatchesToken(ix, tokens[j], minAlert)
    ensures r.Some? ==>
              exists j :: 0 <= j < |tokens| && tokens[j] == r.value &&
                          MatchesToken(ix, tokens[j], minAlert) &&
                          forall k :: 0 <= k < j ==> !MatchesToken(ix, tokens[k], minAlert)
  {
    if tokens == [] then None
    else if MatchesToken(ix, tokens[0], minAlert) then Some(tokens[0])
    else
      var r := FirstMatch(ix, tokens[1..], minAlert);
      assert forall j :: 1 <= j < |tokens| ==> tokens[j] == tokens[1..][j - 1];
      r
  }

  /** `ix` raises an alert on its own. */
  predicate Qualifies(ix: Instruction, tokens: seq<Token>, minAlert: nat)
  {
    FirstMatch(ix, tokens, minAlert).Some?
  }

  /** The alert a qualifying instruction raises. */
  function AlertOf(ix: Instruction, tokens: seq<Token>, minAlert: nat, signature: string): Alert
    requires Qualifies(ix, tokens, minAlert)
  {
    var t := FirstMatch(ix, tokens, minAlert).value;
    Alert(t.symbol, Scaled(ix.parsed.value.amount.value, t), signature)
  }

  /** The handler's scan: the alert of the first qualifying instruction, if any. */
  function FirstAlert(ixs: seq<Instruction>, tokens: seq<Token>, minAlert: nat, signature: string)
    : Option<Alert>
  {
    if ixs == [] then None
    else if Qualifies(ixs[0], tokens, minAlert) then Some(AlertOf(ixs[0], tokens, minAlert, signature))
    else FirstAlert(ixs[1..], tokens, minAlert, signature)
  }

  /** The alert a transaction raises under the configured table and threshold. */
  function Detect(tx: Transaction): Option<Alert>
  {
    FirstAlert(Flatten(tx), Tokens, MinAlert, tx.signature)
  }

  /** Reference definition: one alert for every qualifying instruction, in scan order. */
  function AllAlerts(ixs: seq<Instruction>, tokens: seq<Token>, minAlert: nat, signature: string)
    : seq<Alert>
  {
    if ixs == [] then []
    else
      (if Qualifies(ixs[0], tokens, minAlert) then [AlertOf(ixs[0], tokens, minAlert, signature)] else [])
      + AllAlerts(ixs[1..], tokens, minAlert, signature)
  }

  // ---------------------------------------------------------------------------
  // The per-instruction test
  // ---------------------------------------------------------------------------

  /** The integer test and the source's division agree exactly. */
  lemma ThresholdExact(raw: int, t: Token, minAlert: nat)
    ensures MeetsThreshold(raw, t, minAlert) <==> Scaled(raw, t) >= minAlert as real
  {
    var p := Pow10(t.decimals);
    var q := Scaled(raw, t);
    assert q * p as real == raw as real;
    assert (minAlert * p) as real == minAlert as real * p as real;
    if raw >= minAlert * p {
      assert q * p as real >= minAlert as real * p as real;
    } else {
      assert q * p as real < minAlert as real * p as real;
    }
  }

  /** An instruction qualifies exactly when it is a token transfer whose mint is in the table
      and whose raw amount reaches the minimum scaled by that token's decimals. */
  lemma QualifiesIff(ix: Instruction, tokens: seq<Token>, minAlert: nat)
    ensures Qualifies(ix, tokens, minAlert) <==>
            IsTokenTransfer(ix) && ix.parsed.value.amount.Some? &&
            exists j :: 0 <= j < |tokens| && ix.parsed.value.mint == Some(tokens[j].mint) &&
                        ix.parsed.value.amount.value >= minAlert * Pow10(tokens[j].decimals)
  {
    if Qualifies(ix, tokens, minAlert) {
      var j :| 0 <= j < |tokens| && MatchesToken(ix, tokens[j], minAlert);
    }
  }

  /** The alert names the matched token and its scaled amount, which reaches the minimum. */
  lemma AlertOfMeaning(ix: Instruction, tokens: seq<Token>, minAlert: nat, signature: string)
    requires Qualifies(ix, tokens, minAlert)
    ensures var a := AlertOf(ix, tokens, minAlert, signature);
            a.signature == signature && a.amount >= minAlert as real &&
            exists j :: 0 <= j < |tokens| && tokens[j].symbol == a.symbol &&
                        ix.parsed.value.mint == Some(tokens[j].mint) &&
                        a.amount == Scaled(ix.parsed.value.amount.value, tokens[j])
  {
    var t := FirstMatch(ix, tokens, minAlert).value;
    ThresholdExact(ix.parsed.value.amount.value, t, minAlert);
  }

  // ---------------------------------------------------------------------------
  // The scan over a transaction's instructions
  // ---------------------------------------------------------------------------

  /** No alert exactly when no instruction qualifies. */
  lemma {:induction false} FirstAlertNone(ixs: seq<Instruction>, tokens: seq<Token>, minAlert: nat,
                                          signature: string)
    ensures FirstAlert(ixs, tokens, minAlert, signature).None? <==>
            forall i :: 0 <= i < |ixs| ==> !Qualifies(ixs[i], tokens, minAlert)
  {
    if ixs != [] {
      FirstAlertNone(ixs[1..], tokens, minAlert, signature);
      assert forall i :: 1 <= i < |ixs| ==> ixs[i] == ixs[1..][i - 1];
    }
  }

  /** When instruction `i` is the first that qualifies, the alert is its alert. */
  lemma {:induction false} FirstAlertAt(ixs: seq<Instruction>, tokens: seq<Token>, minAlert: nat,
                                        signature: string, i: nat)
    requires i < |ixs| && Qualifies(ixs[i], tokens, minAlert)
    requires forall k :: 0 <= k < i ==> !Qualifies(ixs[k], tokens, minAlert)
    ensures FirstAlert(ixs, tokens, minAlert, signature)
            == Some(AlertOf(ixs[i], tokens, minAlert, signature))
  {
    if i > 0 {
      assert !Qualifies(ixs[0], tokens, minAlert);
      assert forall k :: 0 <= k < i - 1 ==> ixs[1..][k] == ixs[k + 1];
      FirstAlertAt(ixs[1..], tokens, minAlert, signature, i - 1);
    }
  }

  /** An alert always belongs to the first qualifying instruction. */
  lemma FirstAlertIsFirst(ixs: seq<Instruction>, tokens: seq<Token>, minAlert: nat, signature: string)
    ensures FirstAlert(ixs, tokens, minAlert, signature).Some? ==>
            exists i :: 0 <= i < |ixs| && Qualifies(ixs[i], tokens, minAlert) &&
                        (forall k :: 0 <= k < i ==> !Qualifies(ixs[k], tokens, minAlert)) &&
                        FirstAlert(ixs, tokens, minAlert, signature)
                        == Some(AlertOf(ixs[i], tokens, minAlert, signature))
  {
    if FirstAlert(ixs, tokens, minAlert, signature).Some? {
      FirstAlertNone(ixs, tokens, minAlert, signature);
      var i := FirstQualifying(ixs, tokens, minAlert);
      FirstAlertAt(ixs, tokens, minAlert, signature, i);
    }
  }

  /** The index of the first qualifying instruction, when there is one. */
  lemma {:induction false} FirstQualifying(ixs: seq<Instruction>, tokens: seq<Token>, minAlert: nat)
    returns (i: nat)
    requires exists i :: 0 <= i < |ixs| && Qualifies(ixs[i], tokens, minAlert)
    ensures i < |ixs| && Qualifies(ixs[i], tokens, minAlert)
    ensures forall k :: 0 <= k < i ==> !Qualifies(ixs[k], tokens, minAlert)
  {
    if Qualifies(ixs[0], tokens, minAlert) {
      i := 0;
    } else {
      var w :| 0 <= w < |ixs| && Qualifies(ixs[w], tokens, minAlert);
      assert ixs[1..][w - 1] == ixs[w];
      var j := FirstQualifying(ixs[1..], tokens, minAlert);
      assert forall k :: 1 <= k <= j ==> ixs[k] == ixs[1..][k - 1];
      i := j + 1;
    }
  }

  /** Instructions that do not qualify are skipped: scanning continues after them. */
  lemma {:induction false} FirstAlertSkips(pre: seq<Instruction>, rest: seq<Instruction>,
                                           tokens: seq<Token>, minAlert: nat, signature: string)
    requires forall i :: 0 <= i < |pre| ==> !Qualifies(pre[i], tokens, minAlert)
    ensures FirstAlert(pre + rest, tokens, minAlert, signature)
            == FirstAlert(rest, tokens, minAlert, signature)
  {
    if pre != [] {
      var xs := pre + rest;
      assert xs[0] == pre[0] && !Qualifies(pre[0], tokens, minAlert);
      assert xs[1..] == pre[1..] + rest;
      assert forall i :: 0 <= i < |pre| - 1 ==> pre[1..][i] == pre[i + 1];
      FirstAlertSkips(pre[1..], rest, tokens, minAlert, signature);
      assert FirstAlert(xs, tokens, minAlert, signature) == FirstAlert(xs[1..], tokens, minAlert, signature);
    } else {
      assert pre + rest == rest;
    }
  }

  /** The scan stops at the first alert: what follows it is never looked at. */
  lemma {:induction false} FirstAlertStops(pre: seq<Instruction>, rest: seq<Instruction>,
                                           tokens: seq<Token>, minAlert: nat, signature: string)
    requires FirstAlert(pre, tokens, minAlert, signature).Some?
    ensures FirstAlert(pre + rest, tokens, minAlert, signature)
            == FirstAlert(pre, tokens, minAlert, signature)
  {
    assert pre != [];
    if !Qualifies(pre[0], tokens, minAlert) {
      assert (pre + rest)[1..] == pre[1..] + rest;
      FirstAlertStops(pre[1..], rest, tokens, minAlert, signature);
    }
  }

  /** The scan raises the first of the alerts that an alert-per-match scan would raise, and
      nothing when that scan raises nothing. */
  lemma {:induction false} FirstAlertIsHeadOfAll(ixs: seq<Instruction>, tokens: seq<Token>,
                                                 minAlert: nat, signature: string)
    ensures FirstAlert(ixs, tokens, minAlert, signature)
            == if AllAlerts(ixs, tokens, minAlert, signature) == [] then None
               else Some(AllAlerts(ixs, tokens, minAlert, signature)[0])
  {
    if ixs != [] && !Qualifies(ixs[0], tokens, minAlert) {
      FirstAlertIsHeadOfAll(ixs[1..], tokens, minAlert, signature);
    }
  }

  /** Only token transfers can raise an alert: a transaction with none raises nothing. */
  lemma NoTransferNoAlert(ixs: seq<Instruction>, tokens: seq<Token>, minAlert: nat, signature: string)
    requires forall i :: 0 <= i < |ixs| ==> !IsTokenTransfer(ixs[i])
    ensures FirstAlert(ixs, tokens, minAlert, signature) == None
  {
    FirstAlertNone(ixs, tokens, minAlert, signature);
  }

  // ---------------------------------------------------------------------------
  // The configured table
  // ---------------------------------------------------------------------------

  /** An `spl-token` `transfer` of `raw` units of `mint`. */
  function SplTransfer(mint: string, raw: int): Instruction
  {
    Instruction("spl-token", Some(ParsedInstruction("transfer", Some(mint), Some(raw))))
  }

  lemma Pow10Six()
    ensures Pow10(6) == 1_000_000
  {
    assert Pow10(1) == 10;
    assert Pow10(3) == 1000;
  }

  /** With a minimum of 1 and six decimals for both tokens, a transfer qualifies exactly when
      its mint is USDT's or USDC's and it moves at least 1,000,000 raw units. */
  lemma ConfiguredThreshold(mint: string, raw: int)
    ensures Qualifies(SplTransfer(mint, raw), Tokens, MinAlert) <==>
            (mint == UsdtMint || mint == UsdcMint) && raw >= 1_000_000
  {
    Pow10Six();
    var ix := SplTransfer(mint, raw);
    QualifiesIff(ix, Tokens, MinAlert);
    if mint == UsdtMint && raw >= 1_000_000 {
      assert ix.parsed.value.mint == Some(Tokens[0].mint);
    } else if mint == UsdcMint && raw >= 1_000_000 {
      assert ix.parsed.value.mint == Some(Tokens[1].mint);
    }
  }

  /** Exactly one whole token alerts, with amount 1; one raw unit less does not. */
  lemma ThresholdBoundary(sig: string)
    ensures FirstAlert([SplTransfer(UsdtMint, 1_000_000)], Tokens, MinAlert, sig)
            == Some(Alert("USDT", 1.0, sig))
    ensures FirstAlert([SplTransfer(UsdtMint, 999_999)], Tokens, MinAlert, sig) == None
  {
    Pow10Six();
    assert MatchesToken(SplTransfer(UsdtMint, 1_000_000), Tokens[0], MinAlert);
    assert !MatchesToken(SplTransfer(UsdtMint, 999_999), Tokens[0], MinAlert);
    assert UsdtMint[1] != UsdcMint[1];
    assert !MatchesToken(SplTransfer(UsdtMint, 999_999), Tokens[1], MinAlert);
  }

  /** A transaction carrying a 5 USDT and a 3 USDC transfer raises one alert, for the USDT
      transfer, although two instructions qualify. */
  lemma TwoTransfersOneAlert(sig: string)
    ensures var ixs := [SplTransfer(UsdtMint, 5_000_000), SplTransfer(UsdcMint, 3_000_000)];
            FirstAlert(ixs, Tokens, MinAlert, sig) == Some(Alert("USDT", 5.0, sig)) &&
            |AllAlerts(ixs, Tokens, MinAlert, sig)| == 2
  {
    Pow10Six();
    var ixs := [SplTransfer(UsdtMint, 5_000_000), SplTransfer(UsdcMint, 3_000_000)];
    assert MatchesToken(ixs[0], Tokens[0], MinAlert);
    assert UsdtMint[1] != UsdcMint[1];
    assert !MatchesToken(ixs[1], Tokens[0], MinAlert);
    assert MatchesToken(ixs[1], Tokens[1], MinAlert);
    assert ixs[1..] == [ixs[1]];
    assert ixs[1..][1..] == [];
    assert |AllAlerts(ixs[1..], Tokens, MinAlert, sig)| == 1;
  }
}
