/**
 The decoded `transactionSubscribe` notification, reduced to the fields the message handler
 reads, and the flattening of a transaction's instructions into the order they are scanned in.
 */
module Transactions {
  import opened Wrappers

  /** `ix.parsed`: `kind` is `parsed.type`, `mint` is `parsed.info.mint` (missing on parsed
      instructions that carry no mint) and `amount` is `Number(parsed.info.amount)`, which is
      None when the amount does not read as a number (NaN). */
  datatype ParsedInstruction = ParsedInstruction(kind: string, mint: Option<string>, amount: Option<int>)

  /** One instruction: the program that runs it and, when the node decodes it, its parsed form. */
  datatype Instruction = Instruction(program: string, parsed: Option<ParsedInstruction>)

  /** One entry of `meta.innerInstructions`: the instructions run on behalf of a top-level
      instruction. Which one it is (the entry's `index`) is never read, so it is not kept. */
  datatype InnerInstructions = InnerInstructions(instructions: seq<Instruction>)

  /** `params.result`: `signature` is `transaction.signatures[0]`, `instructions` is
      `transaction.message.instructions`, and `innerInstructions` is `meta.innerInstructions`,
      None when the meta or the list is missing. */
  datatype Transaction = Transaction(
    signature: string,
    instructions: seq<Instruction>,
    innerInstructions: Option<seq<InnerInstructions>>)

  /** A decoded frame: `result` is `data.params.result`, None when it is missing. */
  datatype Message = Message(result: Option<Transaction>)

  /** The inner-instruction groups, an empty list standing in for a missing one. */
  function InnerGroups(tx: Transaction): seq<InnerInstructions>
  {
    match tx.innerInstructions
    case Some(groups) => groups
    case None => []
  }

  /** The groups' instruction lists, joined in order (`flatMap(i => i.instructions)`). */
  function Concat(groups: seq<InnerInstructions>): seq<Instruction>
  {
    if groups == [] then [] else groups[0].instructions + Concat(groups[1..])
  }

  /** The number of instructions in all groups together. */
  function TotalLength(groups: seq<InnerInstructions>): nat
  {
    if groups == [] then 0 else |groups[0].instructions| + TotalLength(groups[1..])
  }

  /** Where group `k`'s instructions start in `Concat(groups)`: the lengths of the groups before it. */
  function Offset(groups: seq<InnerInstructions>, k: nat): nat
    requires k <= |groups|
  {
    if k == 0 then 0 else |groups[0].instructions| + Offset(groups[1..], k - 1)
  }

  /** The instructions the handler scans: the top-level ones, then every inner group's. */
  function Flatten(tx: Transaction): seq<Instruction>
  {
    tx.instructions + Concat(InnerGroups(tx))
  }

  lemma {:induction false} ConcatLength(groups: seq<InnerInstructions>)
    ensures |Concat(groups)| == TotalLength(groups)
  {
    if groups != [] {
      ConcatLength(groups[1..]);
    }
  }

  /** Group `k` sits, unchanged and in order, at its offset in the concatenation. */
  lemma {:induction false} ConcatPlacesGroup(groups: seq<InnerInstructions>, k: nat)
    requires k < |groups|
    ensures Offset(groups, k) + |groups[k].instructions| <= |Concat(groups)|
    ensures Concat(groups)[Offset(groups, k)..Offset(groups, k) + |groups[k].instructions|]
            == groups[k].instructions
  {
    var head := groups[0].instructions;
    if k > 0 {
      var tail := groups[1..];
      ConcatPlacesGroup(tail, k - 1);
      var o := Offset(tail, k - 1);
      var n := |groups[k].instructions|;
      assert tail[k - 1] == groups[k];
      assert Concat(groups) == head + Concat(tail);
      assert (head + Concat(tail))[|head| + o..|head| + o + n] == Concat(tail)[o..o + n];
    }
  }

  /** An instruction occurs in the concatenation exactly when it occurs in one of the groups. */
  lemma {:induction false} ConcatMembers(groups: seq<InnerInstructions>, ix: Instruction)
    ensures ix in Concat(groups) <==>
            exists k :: 0 <= k < |groups| && ix in groups[k].instructions
  {
    if groups != [] {
      var tail := groups[1..];
      ConcatMembers(tail, ix);
      if ix in Concat(tail) {
        var k :| 0 <= k < |tail| && ix in tail[k].instructions;
        assert groups[k + 1] == tail[k];
      }
      if exists k :: 0 <= k < |groups| && ix in groups[k].instructions {
        var k :| 0 <= k < |groups| && ix in groups[k].instructions;
        if k > 0 {
          assert tail[k - 1] == groups[k];
        }
      }
    }
  }

  /** The scanned sequence starts with the top-level instructions, unchanged, and its length is
      the sum of the lengths of all the lists. */
  lemma FlattenLength(tx: Transaction)
    ensures |Flatten(tx)| == |tx.instructions| + TotalLength(InnerGroups(tx))
    ensures Flatten(tx)[..|tx.instructions|] == tx.instructions
  {
    ConcatLength(InnerGroups(tx));
  }

  /** Inner group `k` follows the top-level instructions and the groups before it, unchanged. */
  lemma FlattenPlacesGroup(tx: Transaction, k: nat)
    requires k < |InnerGroups(tx)|
    ensures |tx.instructions| + Offset(InnerGroups(tx), k) + |InnerGroups(tx)[k].instructions|
            <= |Flatten(tx)|
    ensures Flatten(tx)[|tx.instructions| + Offset(InnerGroups(tx), k)..
                        |tx.instructions| + Offset(InnerGroups(tx), k) + |InnerGroups(tx)[k].instructions|]
            == InnerGroups(tx)[k].instructions
  {
    var groups := InnerGroups(tx);
    ConcatPlacesGroup(groups, k);
    var o := Offset(groups, k);
    var n := |groups[k].instructions|;
    assert Flatten(tx)[|tx.instructions| + o..|tx.instructions| + o + n] == Concat(groups)[o..o + n];
  }

  /** Nothing is invented or lost: an instruction is scanned exactly when it is a top-level
      instruction or belongs to one of the inner groups. */
  lemma FlattenMembers(tx: Transaction, ix: Instruction)
    ensures ix in Flatten(tx) <==>
            ix in tx.instructions ||
            exists k :: 0 <= k < |InnerGroups(tx)| && ix in InnerGroups(tx)[k].instructions
  {
    ConcatMembers(InnerGroups(tx), ix);
  }
}
