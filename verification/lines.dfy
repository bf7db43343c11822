/** Generated files as sequences of lines (heredoc indentation is not modelled), and the
    two ways the templates assemble them: `blocks.join("\n\n")` and concatenation.

    Throughout the templates a long literal line is written as a concatenation of short
    pieces (`"def" + " handle_response(response)"`): the verifier handles short literals
    much more cheaply, and the text spelled is the same. */
module Lines {

  /** `blocks.join("\n\n")`: consecutive blocks separated by one empty line. */
  function JoinBlocks(blocks: seq<seq<string>>): (r: seq<string>)
    ensures |blocks| == 0 ==> r == []
    ensures |blocks| == 1 ==> r == blocks[0]
  {
    if |blocks| == 0 then []
    else if |blocks| == 1 then blocks[0]
    else blocks[0] + [""] + JoinBlocks(blocks[1..])
  }

  /** All blocks one after the other, with no separator. */
  function Flatten(blocks: seq<seq<string>>): (r: seq<string>)
    ensures |blocks| == 0 ==> r == []
  {
    if |blocks| == 0 then [] else blocks[0] + Flatten(blocks[1..])
  }

  /** The lines that begin with `prefix`, in order. */
  function LinesStartingWith(lines: seq<string>, prefix: string): (r: seq<string>)
    ensures |r| <= |lines|
    ensures forall k :: 0 <= k < |r| ==> prefix <= r[k]
  {
    if |lines| == 0 then []
    else (if prefix <= lines[0] then [lines[0]] else []) + LinesStartingWith(lines[1..], prefix)
  }

  lemma {:induction false} LinesStartingWithAppend(a: seq<string>, b: seq<string>, prefix: string)
    ensures LinesStartingWith(a + b, prefix) == LinesStartingWith(a, prefix) + LinesStartingWith(b, prefix)
    decreases |a|
  {
    if |a| == 0 {
      assert a + b == b;
    } else {
      assert (a + b)[0] == a[0] && (a + b)[1..] == a[1..] + b;
      LinesStartingWithAppend(a[1..], b, prefix);
    }
  }

  lemma {:induction false} NoLineStartingWith(lines: seq<string>, prefix: string)
    requires forall k :: 0 <= k < |lines| ==> !(prefix <= lines[k])
    ensures LinesStartingWith(lines, prefix) == []
    decreases |lines|
  {
    if |lines| > 0 {
      NoLineStartingWith(lines[1..], prefix);
    }
  }

  /** When exactly one line begins with `prefix`, that line is all the filter keeps. */
  lemma OnlyLineStartingWith(lines: seq<string>, k: nat, prefix: string)
    requires k < |lines| && prefix <= lines[k]
    requires forall j :: 0 <= j < |lines| && j != k ==> !(prefix <= lines[j])
    ensures LinesStartingWith(lines, prefix) == [lines[k]]
  {
    var a, b, c := lines[..k], [lines[k]], lines[k + 1..];
    assert lines == a + b + c;
    assert forall j :: 0 <= j < |a| ==> a[j] == lines[j];
    assert forall j :: 0 <= j < |c| ==> c[j] == lines[k + 1 + j];
    NoLineStartingWith(a, prefix);
    NoLineStartingWith(c, prefix);
    LinesStartingWithAppend(a, b, prefix);
    LinesStartingWithAppend(a + b, c, prefix);
  }

  /** A block whose first line, and only its first line, begins with `prefix`. */
  predicate HeadedBy(block: seq<string>, prefix: string)
  {
    |block| > 0 && prefix <= block[0] && forall k :: 1 <= k < |block| ==> !(prefix <= block[k])
  }

  /** The first line of every block (an empty block contributes an empty line). */
  function Heads(blocks: seq<seq<string>>): (r: seq<string>)
    ensures |r| == |blocks|
    ensures forall i :: 0 <= i < |blocks| && |blocks[i]| > 0 ==> r[i] == blocks[i][0]
  {
    if |blocks| == 0 then []
    else [if |blocks[0]| > 0 then blocks[0][0] else ""] + Heads(blocks[1..])
  }

  lemma HeadedBlockLines(block: seq<string>, prefix: string)
    requires HeadedBy(block, prefix)
    ensures LinesStartingWith(block, prefix) == [block[0]]
  {
    assert block == [block[0]] + block[1..];
    NoLineStartingWith(block[1..], prefix);
    LinesStartingWithAppend([block[0]], block[1..], prefix);
  }

  /** Joining blocks that each start with one `prefix` line keeps those lines, one per block,
      in block order; the separators never start with a non-empty prefix. */
  lemma {:induction false} HeadsOfJoinedBlocks(blocks: seq<seq<string>>, prefix: string)
    requires |prefix| > 0
    requires forall i :: 0 <= i < |blocks| ==> HeadedBy(blocks[i], prefix)
    ensures LinesStartingWith(JoinBlocks(blocks), prefix) == Heads(blocks)
    decreases |blocks|
  {
    if |blocks| == 1 {
      HeadedBlockLines(blocks[0], prefix);
      assert Heads(blocks) == [blocks[0][0]];
    } else if |blocks| > 1 {
      var b, rest := blocks[0], blocks[1..];
      assert HeadedBy(b, prefix);
      HeadedBlockLines(b, prefix);
      assert forall i :: 0 <= i < |rest| ==> rest[i] == blocks[i + 1];
      HeadsOfJoinedBlocks(rest, prefix);
      assert JoinBlocks(blocks) == (b + [""]) + JoinBlocks(rest);
      LinesStartingWithAppend(b, [""], prefix);
      LinesStartingWithAppend(b + [""], JoinBlocks(rest), prefix);
      assert LinesStartingWith([""], prefix) == [];
      assert Heads(blocks) == [b[0]] + Heads(rest);
    }
  }
}
