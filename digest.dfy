/**
 * The daily digest's text: a header, one block per case (name and age,
 * where the child was last seen, the case number), and a footer, built by
 * appending block after block.
 */
module Digest {
  import opened Strings
  import opened Models

  const DigestHeader: string := "\U{1F4CB} Daily Missing Children Digest\n\n"
  const DigestFooter: string := "Stay vigilant in your community.\nReport sightings to 911."

  /** Lines 70-72: name and age, location, case number. */
  function DigestBlock(c: MissingChild): string {
    BlockHead(c) + CaseBlockLine(c)
  }

  function BlockHead(c: MissingChild): string {
    "\U{2022} " + c.firstName + " " + c.lastName + ", " + IntToString(c.age) + "\n"
    + "  Missing from: " + c.lastSeenLocation + "\n"
  }

  function CaseBlockLine(c: MissingChild): string {
    "  Case #" + c.caseNumber + "\n\n"
  }

  /** The blocks of the cases, in order. */
  function Blocks(cases: seq<MissingChild>): (r: seq<string>)
    ensures |r| == |cases|
    ensures forall i :: 0 <= i < |cases| ==> r[i] == DigestBlock(cases[i])
  {
    seq(|cases|, i requires 0 <= i < |cases| => DigestBlock(cases[i]))
  }

  /** The parts written one after another. */
  function Join(parts: seq<string>): string
    decreases |parts|
  {
    if parts == [] then "" else Join(parts[..|parts| - 1]) + parts[|parts| - 1]
  }

  /** Lines 68-74: the header, the blocks in order, the footer. */
  function DigestText(cases: seq<MissingChild>): (r: string)
    ensures |DigestHeader| + |DigestFooter| <= |r|
    ensures r[..|DigestHeader|] == DigestHeader
    ensures r[|r| - |DigestFooter|..] == DigestFooter
  {
    DigestHeader + Join(Blocks(cases)) + DigestFooter
  }

  /** Joining one more part appends it. */
  lemma JoinSnoc(parts: seq<string>, i: nat)
    requires i < |parts|
    ensures Join(parts[..i + 1]) == Join(parts[..i]) + parts[i]
  {
    assert parts[..i + 1][..i] == parts[..i];
  }

  lemma Regroup(h: string, b: string, x: string)
    ensures (h + b) + x == h + (b + x)
  {
  }

  /** Lines 68-74: the body accumulated with `+=`. */
  method BuildDigestBody(cases: seq<MissingChild>) returns (message: string)
    ensures message == DigestText(cases)
  {
    var blocks := Blocks(cases);
    message := DigestHeader;
    var i := 0;
    while i < |cases|
      invariant 0 <= i <= |cases|
      invariant message == DigestHeader + Join(blocks[..i])
    {
      JoinSnoc(blocks, i);
      Regroup(DigestHeader, Join(blocks[..i]), blocks[i]);
      message := message + DigestBlock(cases[i]);
      i := i + 1;
    }
    assert blocks[..i] == blocks;
    message := message + DigestFooter;
  }

  /** Joining a prefix of the parts gives a prefix of the joined text. */
  lemma {:induction false} JoinPrefix(parts: seq<string>, i: nat)
    requires i <= |parts|
    ensures |Join(parts[..i])| <= |Join(parts)|
    ensures Join(parts)[..|Join(parts[..i])|] == Join(parts[..i])
    decreases |parts|
  {
    if i < |parts| {
      var shorter := parts[..|parts| - 1];
      assert shorter[..i] == parts[..i];
      JoinPrefix(shorter, i);
    } else {
      assert parts[..i] == parts;
    }
  }

  /** Where a piece sits when the middle of three strings starts with it. */
  lemma Window(h: string, b: string, f: string, p: string, x: string)
    requires |p| + |x| <= |b| && b[..|p| + |x|] == p + x
    ensures var t := h + b + f;
      && t[..|h|] == h && t[|t| - |f|..] == f
      && |h| + |p| + |x| <= |t| && t[|h| + |p|..|h| + |p| + |x|] == x
  {
    var t := h + b + f;
    assert t[|h| + |p|..|h| + |p| + |x|] == b[..|p| + |x|][|p|..];
  }

  /** A piece inside a window is itself a window. */
  lemma Inner(t: string, at: nat, pre: string, x: string, suf: string)
    requires at + |pre| + |x| + |suf| <= |t| && t[at..at + |pre| + |x| + |suf|] == pre + (x + suf)
    ensures t[at + |pre|..at + |pre| + |x|] == x
  {
    var w := t[at..at + |pre| + |x| + |suf|];
    forall k | 0 <= k < |x| ensures t[at + |pre| + k] == x[k] {
      assert t[at + |pre| + k] == w[|pre| + k];
    }
  }

  /** Part `i` sits after the parts before it, whatever surrounds the joined text. */
  lemma JoinAt(h: string, f: string, parts: seq<string>, i: nat)
    requires i < |parts|
    ensures var text := h + Join(parts) + f; var at := |h| + |Join(parts[..i])|;
      && text[..|h|] == h && text[|text| - |f|..] == f
      && at + |parts[i]| <= |text|
      && text[at..at + |parts[i]|] == parts[i]
  {
    JoinSnoc(parts, i);
    JoinPrefix(parts, i + 1);
    Window(h, Join(parts), f, Join(parts[..i]), parts[i]);
  }

  /**
   * The digest is the header, then case `i`'s block at the offset after the
   * blocks of the cases before it, then the footer.
   */
  lemma DigestLayout(cases: seq<MissingChild>, i: nat)
    requires i < |cases|
    ensures var text := DigestText(cases); var at := |DigestHeader| + |Join(Blocks(cases)[..i])|;
      var block := Blocks(cases)[i];
      && block == DigestBlock(cases[i])
      && text[..|DigestHeader|] == DigestHeader
      && text[|text| - |DigestFooter|..] == DigestFooter
      && at + |block| <= |text|
      && text[at..at + |block|] == block
  {
    JoinAt(DigestHeader, DigestFooter, Blocks(cases), i);
  }

  /** A line inside part `i` occurs in the joined text, whatever surrounds it. */
  lemma LineInPart(h: string, f: string, parts: seq<string>, i: nat, pre: string, line: string, suf: string)
    requires i < |parts| && parts[i] == pre + (line + suf)
    ensures Contains(h + Join(parts) + f, line)
  {
    JoinAt(h, f, parts, i);
    var text := h + Join(parts) + f;
    var at := |h| + |Join(parts[..i])|;
    Inner(text, at, pre, line, suf);
    ContainsAt(text, line, at + |pre|);
  }

  /** Every case's number appears in the digest, after `"  Case #"`. */
  lemma DigestMentionsEveryCase(cases: seq<MissingChild>, i: nat)
    requires i < |cases|
    ensures Contains(DigestText(cases), "  Case #" + cases[i].caseNumber)
  {
    var c := cases[i];
    Regroup(BlockHead(c), "  Case #" + c.caseNumber, "\n\n");
    LineInPart(DigestHeader, DigestFooter, Blocks(cases), i, BlockHead(c), "  Case #" + c.caseNumber, "\n\n");
  }
}
