/** Untrusted observations rendered into a prompt under a character budget. */
module Prompts {
  import opened JsonValues

  const OPENING := "<UNTRUSTED_OBSERVATION index=\""
  const CLOSING := "\n</UNTRUSTED_OBSERVATION>"
  const MAX_BLOCKS: nat := 16
  const MAX_ENCODED: nat := 2048

  function Smaller(a: nat, b: nat): nat {
    if a < b then a else b
  }

  /** The block of observation `index`, whose JSON text is `encoded`. */
  function BlockText(index: nat, encoded: string, remaining: nat): string {
    var bound := Smaller(MAX_ENCODED, remaining);
    OPENING + Decimal(index) + "\">\n" + (if |encoded| <= bound then encoded else encoded[..bound]) + CLOSING
  }

  /** A block names its observation and holds as much of its text as 2048 and the rest of the budget allow. */
  lemma BlockExact(index: nat, encoded: string, remaining: nat)
    ensures exists body :: Holding(index, encoded, remaining, body)
  {
    var bound := Smaller(MAX_ENCODED, remaining);
    var body := if |encoded| <= bound then encoded else encoded[..bound];
    assert Holding(index, encoded, remaining, body);
  }

  ghost predicate Holding(index: nat, encoded: string, remaining: nat, body: string) {
    && BlockText(index, encoded, remaining)
         == "<UNTRUSTED_OBSERVATION index=\"" + Decimal(index) + "\">\n" + body + "\n</UNTRUSTED_OBSERVATION>"
    && body <= encoded && |body| <= 2048 && |body| <= remaining
    && (body == encoded || |body| == 2048 || |body| == remaining)
  }

  function TotalLength(blocks: seq<string>): nat {
    if blocks == [] then 0 else TotalLength(blocks[..|blocks| - 1]) + |blocks[|blocks| - 1]|
  }

  function Join(blocks: seq<string>): string {
    if blocks == [] then ""
    else if |blocks| == 1 then blocks[0]
    else Join(blocks[..|blocks| - 1]) + "\n" + blocks[|blocks| - 1]
  }

  /** Block `i` is the rendering of observation `i` within what the earlier blocks left over. */
  predicate Rendered(encodings: seq<string>, budget: nat, blocks: seq<string>) {
    && |blocks| <= |encodings|
    && forall i :: 0 <= i < |blocks| ==>
         && TotalLength(blocks[..i]) <= budget
         && blocks[i] == BlockText(i, encodings[i], budget - TotalLength(blocks[..i]))
  }

  lemma RenderedSnoc(encodings: seq<string>, budget: nat, blocks: seq<string>)
    requires Rendered(encodings, budget, blocks) && |blocks| < |encodings| && TotalLength(blocks) <= budget
    ensures var block := BlockText(|blocks|, encodings[|blocks|], budget - TotalLength(blocks));
      && Rendered(encodings, budget, blocks + [block])
      && TotalLength(blocks + [block]) == TotalLength(blocks) + |block|
  {
    hide BlockText, TotalLength;
    var block := BlockText(|blocks|, encodings[|blocks|], budget - TotalLength(blocks));
    var longer := blocks + [block];
    TotalSnoc(blocks, block);
    assert longer[..|blocks|] == blocks;
    forall i | 0 <= i < |longer|
      ensures TotalLength(longer[..i]) <= budget
      ensures longer[i] == BlockText(i, encodings[i], budget - TotalLength(longer[..i]))
    {
      if i < |blocks| {
        assert longer[..i] == blocks[..i];
      }
    }
  }

  lemma NothingRendered(encodings: seq<string>, budget: nat)
    ensures Rendered(encodings, budget, []) && TotalLength([]) == 0
  {
  }

  lemma TotalSnoc(blocks: seq<string>, block: string)
    ensures TotalLength(blocks + [block]) == TotalLength(blocks) + |block|
  {
    assert (blocks + [block])[..|blocks|] == blocks;
  }

  /** The blocks the loop leaves behind: within the budget, and ended by the cap, the observations or a misfit. */
  predicate Produced(encodings: seq<string>, budget: nat, blocks: seq<string>) {
    && Rendered(encodings, budget, blocks)
    && |blocks| <= MAX_BLOCKS && TotalLength(blocks) <= budget
    && (|blocks| < MAX_BLOCKS && |blocks| < |encodings| ==>
          |BlockText(|blocks|, encodings[|blocks|], budget - TotalLength(blocks))| > budget - TotalLength(blocks))
  }

  /** The loop of `_untrusted_blocks`: it stops at the sixteenth observation or the first that does not fit. */
  method UntrustedBlocks(encodings: seq<string>, budget: nat) returns (blocks: seq<string>, text: string)
    ensures Produced(encodings, budget, blocks)
    ensures text == if blocks == [] then "(no observations)" else Join(blocks)
  {
    hide BlockText, Rendered, TotalLength, Join;
    blocks := [];
    NothingRendered(encodings, budget);
    var remaining: nat := budget;
    var stop := Smaller(MAX_BLOCKS, |encodings|);
    for index := 0 to stop
      invariant |blocks| == index && remaining + TotalLength(blocks) == budget
      invariant Rendered(encodings, budget, blocks)
    {
      var block := BlockText(index, encodings[index], remaining);
      if |block| > remaining {
        break;
      }
      RenderedSnoc(encodings, budget, blocks);
      blocks := blocks + [block];
      remaining := remaining - |block|;
    }
    text := if blocks == [] then "(no observations)" else Join(blocks);
  }

  /** The separators are not charged to the budget: the text is longer than its blocks by one newline each. */
  lemma {:induction false} JoinLength(blocks: seq<string>)
    requires blocks != []
    ensures |Join(blocks)| == TotalLength(blocks) + |blocks| - 1
  {
    if |blocks| == 1 {
      assert blocks[..0] == [];
    } else {
      JoinLength(blocks[..|blocks| - 1]);
    }
  }

  // ----- in terms of the observations -----

  /** Size of the block of observation `index` when the budget does not cut it. */
  function BlockSize(index: nat, encoded: string): nat {
    |OPENING| + |Decimal(index)| + 3 + Smaller(MAX_ENCODED, |encoded|) + |CLOSING|
  }

  /** Size of the first `n` blocks. */
  function Sizes(encodings: seq<string>, n: nat): nat
    requires n <= |encodings|
  {
    if n == 0 then 0 else Sizes(encodings, n - 1) + BlockSize(n - 1, encodings[n - 1])
  }

  function Cap(encodings: seq<string>): nat {
    Smaller(MAX_BLOCKS, |encodings|)
  }

  /** The budget holds `n` blocks and no more. */
  predicate Holds(encodings: seq<string>, budget: nat, n: nat) {
    n <= Cap(encodings) && Sizes(encodings, n) <= budget && (n < Cap(encodings) ==> Sizes(encodings, n + 1) > budget)
  }

  /** The budget cuts an encoding only in a block that does not fit. */
  lemma FitsUncut(index: nat, encoded: string, remaining: nat)
    ensures |BlockText(index, encoded, remaining)| <= remaining <==> BlockSize(index, encoded) <= remaining
    ensures BlockSize(index, encoded) <= remaining ==>
      |BlockText(index, encoded, remaining)| == BlockSize(index, encoded)
  {
    hide Decimal;
  }

  lemma {:induction false} SizesOrdered(encodings: seq<string>, m: nat, n: nat)
    requires m <= n <= |encodings|
    ensures Sizes(encodings, m) <= Sizes(encodings, n)
  {
    hide BlockSize;
    if m < n {
      SizesOrdered(encodings, m, n - 1);
    }
  }

  /** At most one number of blocks is the one the budget holds. */
  lemma HoldsOnce(encodings: seq<string>, budget: nat, m: nat, n: nat)
    requires Holds(encodings, budget, m) && Holds(encodings, budget, n)
    ensures m == n
  {
    hide Sizes;
    if m < n {
      SizesOrdered(encodings, m + 1, n);
    } else if n < m {
      SizesOrdered(encodings, n + 1, m);
    }
  }

  lemma {:induction false} TotalIsSizes(encodings: seq<string>, budget: nat, blocks: seq<string>, n: nat)
    requires Rendered(encodings, budget, blocks) && TotalLength(blocks) <= budget && n <= |blocks|
    ensures TotalLength(blocks[..n]) == Sizes(encodings, n) <= TotalLength(blocks)
  {
    hide BlockText, BlockSize, TotalLength;
    TotalGrows(blocks, n);
    if n == 0 {
      NothingRendered(encodings, budget);
      assert blocks[..0] == [];
    } else {
      TotalIsSizes(encodings, budget, blocks, n - 1);
      assert blocks[..n] == blocks[..n - 1] + [blocks[n - 1]];
      TotalSnoc(blocks[..n - 1], blocks[n - 1]);
      FitsUncut(n - 1, encodings[n - 1], budget - TotalLength(blocks[..n - 1]));
    }
  }

  lemma {:induction false} TotalGrows(blocks: seq<string>, n: nat)
    requires n <= |blocks|
    ensures TotalLength(blocks[..n]) <= TotalLength(blocks)
  {
    if n < |blocks| {
      TotalGrows(blocks[..|blocks| - 1], n);
      assert blocks[..|blocks| - 1][..n] == blocks[..n];
    } else {
      assert blocks[..n] == blocks;
    }
  }

  /** The loop emits exactly as many uncut blocks as the budget holds. */
  lemma ProducedExactly(encodings: seq<string>, budget: nat, blocks: seq<string>)
    requires Produced(encodings, budget, blocks)
    ensures Holds(encodings, budget, |blocks|)
    ensures TotalLength(blocks) == Sizes(encodings, |blocks|)
  {
    hide BlockText, BlockSize, TotalLength;
    var n := |blocks|;
    TotalIsSizes(encodings, budget, blocks, n);
    assert blocks[..n] == blocks;
    if n < Cap(encodings) {
      FitsUncut(n, encodings[n], budget - TotalLength(blocks));
    }
  }

  /** The newlines between blocks are not charged: the text exceeds the budget, by at most fifteen
      characters, exactly when the number of blocks the budget holds leaves too little room for them. */
  lemma OverrunsExactly(encodings: seq<string>, budget: nat, blocks: seq<string>)
    requires Produced(encodings, budget, blocks) && blocks != []
    ensures |Join(blocks)| <= budget + 15
    ensures |Join(blocks)| > budget <==>
      exists n :: 1 <= n && Holds(encodings, budget, n) && budget < Sizes(encodings, n) + n - 1
  {
    hide Rendered, BlockText, Holds, Sizes, Join;
    JoinLength(blocks);
    ProducedExactly(encodings, budget, blocks);
    forall n | Holds(encodings, budget, n) ensures n == |blocks| {
      HoldsOnce(encodings, budget, n, |blocks|);
    }
  }

  /** No block is emitted exactly when the first does not fit. */
  lemma SilentExactly(encodings: seq<string>, budget: nat, blocks: seq<string>)
    requires Produced(encodings, budget, blocks)
    ensures blocks == [] <==> encodings == [] || BlockSize(0, encodings[0]) > budget
  {
    hide BlockText, BlockSize, TotalLength;
    ProducedExactly(encodings, budget, blocks);
    assert encodings != [] ==> Sizes(encodings, 1) == Sizes(encodings, 0) + BlockSize(0, encodings[0]);
    if blocks != [] {
      SizesOrdered(encodings, 1, |blocks|);
    }
  }

  /** The JSON text of a string of `length` plain letters. */
  function QuotedText(length: nat): string {
    "\"" + seq(length, _ => 'x') + "\""
  }

  /** Two equal observations fill a budget of 512 to the last character; the text is one longer. */
  method BudgetExceeded() returns (encodings: seq<string>, text: string)
    ensures encodings == [QuotedText(195), QuotedText(195)]
    ensures |text| == 513
  {
    hide Produced, Join, Decimal;
    encodings := [QuotedText(195), QuotedText(195)];
    var blocks: seq<string>;
    blocks, text := UntrustedBlocks(encodings, 512);
    OneDigit();
    assert BlockSize(0, QuotedText(195)) == BlockSize(1, QuotedText(195)) == 256;
    assert Sizes(encodings, 1) == 256 && Sizes(encodings, 2) == 512;
    assert Holds(encodings, 512, 2);
    ProducedExactly(encodings, 512, blocks);
    HoldsOnce(encodings, 512, 2, |blocks|);
    JoinLength(blocks);
  }

  lemma OneDigit()
    ensures |Decimal(0)| == |Decimal(1)| == 1
  {
  }
}
