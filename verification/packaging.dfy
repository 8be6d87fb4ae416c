/**
  How `packageScript` turns the transformation tree into one script: the
  lines of each Code joined with "\n", the Codes of each Block and the Blocks
  themselves appended with nothing in between.
 */
module ScriptPackaging {
  import opened Transformation

  /** The total length of the pieces. */
  function SumLengths(pieces: seq<string>): nat {
    if pieces == [] then 0 else SumLengths(pieces[..|pieces| - 1]) + |pieces[|pieces| - 1]|
  }

  /** The texts appended in order, nothing in between. */
  function Concat(texts: seq<string>): string {
    if texts == [] then "" else Concat(texts[..|texts| - 1]) + texts[|texts| - 1]
  }

  /** PHP's `implode($sep, $pieces)`: the pieces in order, `sep` between each neighbouring pair. */
  function Implode(sep: string, pieces: seq<string>): string {
    if |pieces| == 0 then ""
    else if |pieces| == 1 then pieces[0]
    else Implode(sep, pieces[..|pieces| - 1]) + sep + pieces[|pieces| - 1]
  }

  /** Where piece `j` starts in the imploded text: after every earlier piece, each followed by one separator. */
  function Start(sep: string, pieces: seq<string>, j: nat): nat
    requires j <= |pieces|
  {
    if j == 0 then 0 else Start(sep, pieces, j - 1) + |pieces[j - 1]| + |sep|
  }

  /** A slice that lies inside the middle part of a concatenation is a slice of that part. */
  lemma SliceOfMiddle(x: string, y: string, z: string, i: nat, j: nat)
    requires i <= j <= |y|
    ensures |x| + j <= |x + y + z| && (x + y + z)[|x| + i..|x| + j] == y[i..j]
  {
    var w := x + y + z;
    assert forall k :: |x| + i <= k < |x| + j ==> w[k] == y[k - |x|];
  }

  /** A slice that lies inside the first part of a concatenation is a slice of that part. */
  lemma SliceOfPrefix(x: string, y: string, i: nat, j: nat)
    requires i <= j <= |x|
    ensures (x + y)[i..j] == x[i..j]
  {
    assert forall k :: i <= k < j ==> (x + y)[k] == x[k];
  }

  lemma {:induction false} ImplodeLength(sep: string, pieces: seq<string>)
    ensures |Implode(sep, pieces)| == SumLengths(pieces) + (if pieces == [] then 0 else (|pieces| - 1) * |sep|)
  {
    if |pieces| >= 2 {
      var init := pieces[..|pieces| - 1];
      ImplodeLength(sep, init);
      assert (|pieces| - 1) * |sep| == (|init| - 1) * |sep| + |sep|;
    } else if |pieces| == 1 {
      assert pieces[..0] == [];
    }
  }

  /** Start depends only on the pieces before `j`. */
  lemma {:induction false} StartOfPrefix(sep: string, pieces: seq<string>, m: nat, j: nat)
    requires j <= m <= |pieces|
    ensures Start(sep, pieces[..m], j) == Start(sep, pieces, j)
  {
    if j > 0 {
      StartOfPrefix(sep, pieces, m, j - 1);
    }
  }

  /** The last piece starts right after the text of the pieces before it and one separator. */
  lemma {:induction false} StartOfLast(sep: string, pieces: seq<string>)
    requires |pieces| >= 2
    ensures Start(sep, pieces, |pieces| - 1) == |Implode(sep, pieces[..|pieces| - 1])| + |sep|
  {
    var n := |pieces|;
    var init := pieces[..n - 1];
    if n == 2 {
      assert Start(sep, pieces, 0) == 0;
    } else {
      StartOfLast(sep, init);
      StartOfPrefix(sep, pieces, n - 1, n - 2);
      assert init[..n - 2] == pieces[..n - 2];
      assert Implode(sep, init) == Implode(sep, init[..n - 2]) + sep + init[n - 2];
    }
  }

  /** What ImplodePieceAt promises about piece `j`. */
  ghost predicate PieceAt(sep: string, pieces: seq<string>, j: nat)
    requires j < |pieces|
  {
    var text := Implode(sep, pieces);
    var s := Start(sep, pieces, j);
    && s + |pieces[j]| <= |text|
    && text[s..s + |pieces[j]|] == pieces[j]
    && (j + 1 < |pieces| ==> Start(sep, pieces, j + 1) <= |text| && text[s + |pieces[j]|..Start(sep, pieces, j + 1)] == sep)
    && (j + 1 == |pieces| ==> s + |pieces[j]| == |text|)
  }

  /** Piece `j` sits, unchanged, at `Start(sep, pieces, j)` in the imploded text; a separator
      follows it exactly when another piece comes after it, and the last piece ends the text. */
  lemma {:induction false} ImplodePieceAt(sep: string, pieces: seq<string>, j: nat)
    requires j < |pieces|
    decreases |pieces|, 1
    ensures Start(sep, pieces, j) + |pieces[j]| <= |Implode(sep, pieces)|
    ensures Implode(sep, pieces)[Start(sep, pieces, j)..Start(sep, pieces, j) + |pieces[j]|] == pieces[j]
    ensures j + 1 < |pieces| ==>
              Start(sep, pieces, j + 1) <= |Implode(sep, pieces)| &&
              Implode(sep, pieces)[Start(sep, pieces, j) + |pieces[j]|..Start(sep, pieces, j + 1)] == sep
    ensures j + 1 == |pieces| ==> Start(sep, pieces, j) + |pieces[j]| == |Implode(sep, pieces)|
  {
    var n := |pieces|;
    if n == 1 {
      assert Start(sep, pieces, 0) == 0;
    } else if j == n - 1 {
      LastPieceAt(sep, pieces);
    } else {
      EarlierPieceAt(sep, pieces, j);
    }
  }

  lemma LastPieceAt(sep: string, pieces: seq<string>)
    requires |pieces| >= 2
    ensures PieceAt(sep, pieces, |pieces| - 1)
  {
    var n := |pieces|;
    var head := Implode(sep, pieces[..n - 1]);
    var text := Implode(sep, pieces);
    assert text == head + sep + pieces[n - 1];
    StartOfLast(sep, pieces);
    assert text[|head| + |sep|..] == pieces[n - 1];
  }

  lemma {:induction false} EarlierPieceAt(sep: string, pieces: seq<string>, j: nat)
    requires j + 1 < |pieces|
    decreases |pieces|, 0
    ensures PieceAt(sep, pieces, j)
  {
    var n := |pieces|;
    var init := pieces[..n - 1];
    var head := Implode(sep, init);
    var text := Implode(sep, pieces);
    assert text == head + (sep + pieces[n - 1]);
    StartOfLast(sep, pieces);
    ImplodePieceAt(sep, init, j);
    StartOfPrefix(sep, pieces, n - 1, j);
    StartOfPrefix(sep, pieces, n - 1, j + 1);
    assert init[j] == pieces[j];
    var s := Start(sep, pieces, j);
    var e := s + |pieces[j]|;
    var next := Start(sep, pieces, j + 1);
    SliceOfPrefix(head, sep + pieces[n - 1], s, e);
    if j + 1 < n - 1 {
      SliceOfPrefix(head, sep + pieces[n - 1], e, next);
    } else {
      SliceOfMiddle(head, sep, pieces[n - 1], 0, |sep|);
    }
  }

  /** Appending lists of texts appends their concatenations. */
  lemma {:induction false} ConcatAppend(a: seq<string>, b: seq<string>)
    ensures Concat(a + b) == Concat(a) + Concat(b)
  {
    if b == [] {
      assert a + b == a;
    } else {
      var init := b[..|b| - 1];
      var last := b[|b| - 1];
      var ab := a + b;
      ConcatAppend(a, init);
      assert ab[..|ab| - 1] == a + init;
      assert ab[|ab| - 1] == last;
      assert Concat(ab) == Concat(a + init) + last;
      assert Concat(b) == Concat(init) + last;
      assert (Concat(a) + Concat(init)) + last == Concat(a) + (Concat(init) + last);
    }
  }

  /** Text `k` sits between the concatenations of the texts before and after it. */
  lemma {:induction false} ConcatSplit(texts: seq<string>, k: nat)
    requires k < |texts|
    ensures Concat(texts) == Concat(texts[..k]) + texts[k] + Concat(texts[k + 1..])
  {
    var n := |texts|;
    var init := texts[..n - 1];
    var last := texts[n - 1];
    assert Concat(texts) == Concat(init) + last;
    if k == n - 1 {
      assert texts[k + 1..] == [];
      assert init == texts[..k];
    } else {
      ConcatSplit(init, k);
      assert init[..k] == texts[..k];
      assert init[k] == texts[k];
      var rest := texts[k + 1..];
      assert rest[..|rest| - 1] == init[k + 1..];
      assert rest[|rest| - 1] == last;
      assert Concat(rest) == Concat(init[k + 1..]) + last;
    }
  }

  /** A piece found at offset `i` of text `k` is found in the concatenation at the same
      offset shifted by the texts before text `k`. */
  lemma SliceInConcat(texts: seq<string>, k: nat, i: nat, piece: string)
    requires k < |texts| && i + |piece| <= |texts[k]| && texts[k][i..i + |piece|] == piece
    ensures |Concat(texts[..k])| + i + |piece| <= |Concat(texts)|
    ensures Concat(texts)[|Concat(texts[..k])| + i..|Concat(texts[..k])| + i + |piece|] == piece
  {
    ConcatSplit(texts, k);
    SliceOfMiddle(Concat(texts[..k]), texts[k], Concat(texts[k + 1..]), i, i + |piece|);
  }

  lemma {:induction false} ConcatLength(texts: seq<string>)
    ensures |Concat(texts)| == SumLengths(texts)
  {
    if texts != [] {
      ConcatLength(texts[..|texts| - 1]);
    }
  }

  /** The text one Code contributes: its lines joined with "\n". */
  function CodeText(code: Code): string {
    Implode("\n", code.scripts)
  }

  /** The texts of the Codes, in order. */
  function CodeTexts(codes: seq<Code>): (r: seq<string>)
    ensures |r| == |codes| && forall k :: 0 <= k < |codes| ==> r[k] == CodeText(codes[k])
  {
    seq(|codes|, k requires 0 <= k < |codes| => CodeText(codes[k]))
  }

  /** The text one Block contributes: its Codes' texts, nothing in between. */
  function BlockText(block: Block): string {
    Concat(CodeTexts(block.codes))
  }

  /** The texts of the Blocks, in order. */
  function BlockTexts(blocks: seq<Block>): (r: seq<string>)
    ensures |r| == |blocks| && forall k :: 0 <= k < |blocks| ==> r[k] == BlockText(blocks[k])
  {
    seq(|blocks|, k requires 0 <= k < |blocks| => BlockText(blocks[k]))
  }

  /** The packaged script: the Blocks' texts, nothing in between. */
  function Packaged(blocks: seq<Block>): string {
    Concat(BlockTexts(blocks))
  }

  /** One more Block packaged: its text is appended to what came before. */
  lemma PackagedStep(blocks: seq<Block>, i: nat)
    requires i < |blocks|
    ensures Packaged(blocks[..i + 1]) == Packaged(blocks[..i]) + BlockText(blocks[i])
  {
    assert BlockTexts(blocks[..i + 1])[..i] == BlockTexts(blocks[..i]);
  }

  /** One more Code of a Block: its text is appended to what came before. */
  lemma CodeTextsStep(codes: seq<Code>, j: nat)
    requires j < |codes|
    ensures Concat(CodeTexts(codes[..j + 1])) == Concat(CodeTexts(codes[..j])) + CodeText(codes[j])
  {
    assert CodeTexts(codes[..j + 1])[..j] == CodeTexts(codes[..j]);
  }

  /** Every Code of every Block, in document order. */
  function AllCodes(blocks: seq<Block>): seq<Code> {
    if blocks == [] then [] else AllCodes(blocks[..|blocks| - 1]) + blocks[|blocks| - 1].codes
  }

  /** The length each Code contributes: its lines plus one "\n" between neighbouring lines. */
  function CodeLength(code: Code): nat {
    SumLengths(code.scripts) + (if |code.scripts| == 0 then 0 else |code.scripts| - 1)
  }

  function TotalLength(codes: seq<Code>): nat {
    if codes == [] then 0 else TotalLength(codes[..|codes| - 1]) + CodeLength(codes[|codes| - 1])
  }

  lemma CodeTextsAppend(a: seq<Code>, b: seq<Code>)
    ensures CodeTexts(a + b) == CodeTexts(a) + CodeTexts(b)
  {
    assert forall k :: 0 <= k < |a| + |b| ==> CodeTexts(a + b)[k] == (CodeTexts(a) + CodeTexts(b))[k];
  }

  lemma BlockTextsAppend(a: seq<Block>, b: seq<Block>)
    ensures BlockTexts(a + b) == BlockTexts(a) + BlockTexts(b)
  {
    assert forall k :: 0 <= k < |a| + |b| ==> BlockTexts(a + b)[k] == (BlockTexts(a) + BlockTexts(b))[k];
  }

  /** Appending Blocks appends their texts: no separator between Blocks. */
  lemma PackagedAppend(a: seq<Block>, b: seq<Block>)
    ensures Packaged(a + b) == Packaged(a) + Packaged(b)
  {
    BlockTextsAppend(a, b);
    ConcatAppend(BlockTexts(a), BlockTexts(b));
  }

  /** The packaged script is the texts of all Codes, Block order then Code order, with no
      separator between Codes or between Blocks. */
  lemma {:induction false} PackagedIsAllCodes(blocks: seq<Block>)
    ensures Packaged(blocks) == Concat(CodeTexts(AllCodes(blocks)))
  {
    if blocks != [] {
      var init := blocks[..|blocks| - 1];
      var last := blocks[|blocks| - 1];
      PackagedIsAllCodes(init);
      assert BlockTexts(blocks)[..|blocks| - 1] == BlockTexts(init);
      assert Packaged(blocks) == Packaged(init) + BlockText(last);
      CodeTextsAppend(AllCodes(init), last.codes);
      ConcatAppend(CodeTexts(AllCodes(init)), CodeTexts(last.codes));
    }
  }

  lemma {:induction false} CodeTextsLength(codes: seq<Code>)
    ensures SumLengths(CodeTexts(codes)) == TotalLength(codes)
  {
    if codes != [] {
      var init := codes[..|codes| - 1];
      CodeTextsLength(init);
      assert CodeTexts(codes)[..|codes| - 1] == CodeTexts(init);
      ImplodeLength("\n", codes[|codes| - 1].scripts);
    }
  }

  /** The script's length: every line, plus one "\n" per pair of neighbouring lines in a Code. */
  lemma PackagedLength(blocks: seq<Block>)
    ensures |Packaged(blocks)| == TotalLength(AllCodes(blocks))
  {
    PackagedIsAllCodes(blocks);
    ConcatLength(CodeTexts(AllCodes(blocks)));
    CodeTextsLength(AllCodes(blocks));
  }

  /** Line `j` of the `k`-th Code in document order appears, unchanged, right after the
      texts of the `k` Codes before it and the first `j` lines of its own Code, each of those
      lines followed by one "\n". */
  lemma PackagedLineAt(blocks: seq<Block>, k: nat, j: nat)
    requires k < |AllCodes(blocks)| && j < |AllCodes(blocks)[k].scripts|
    ensures var codes := AllCodes(blocks);
            var p := |Concat(CodeTexts(codes)[..k])| + Start("\n", codes[k].scripts, j);
            p + |codes[k].scripts[j]| <= |Packaged(blocks)| &&
            Packaged(blocks)[p..p + |codes[k].scripts[j]|] == codes[k].scripts[j]
  {
    var codes := AllCodes(blocks);
    var texts := CodeTexts(codes);
    var s := Start("\n", codes[k].scripts, j);
    var line := codes[k].scripts[j];
    var b := |Concat(texts[..k])|;
    PackagedIsAllCodes(blocks);
    assert texts[k] == Implode("\n", codes[k].scripts);
    ImplodePieceAt("\n", codes[k].scripts, j);
    assert texts[k][s..s + |line|] == line;
    SliceInConcat(texts, k, s, line);
  }
}
