/**
 White space inside a hex mask. The comment above __bitmap_parse forbids it, the code leaves with 0.
 Every such text is: leading white space, comma-separated pieces, white space, another character.
 */
module HexSpace {
  import opened Bits
  import opened HexText

  /** A piece between two commas: no white space, no comma, no end of text. */
  ghost predicate Plain(g: string) { forall i :: 0 <= i < |g| ==> PlainChar(g[i]) }

  predicate PlainChar(c: char) { !IsSpace(c) && c != ',' && c != '\0' }

  ghost predicate Pieces(gs: seq<string>) { |gs| >= 1 && forall i :: 0 <= i < |gs| ==> Plain(gs[i]) }

  /** Some text, then white space, then something else. */
  ghost predicate Embedded(gs: seq<string>, ws: string, d: char) {
    Pieces(gs) && gs != [""] && AllSpace(ws) && |ws| >= 1 && !IsSpace(d) && d != '\0'
  }

  ghost predicate SmallGroup(g: string) { AllHex(g) && GroupVal(g) < 0x1_0000_0000 }

  /** The pieces before the last comma are groups below 2^32; the last piece is one too, or empty. */
  ghost predicate Readable(gs: seq<string>)
    requires |gs| >= 1
  {
    (forall i :: 0 <= i < |gs| - 1 ==> |gs[i]| >= 1 && SmallGroup(gs[i])) && SmallGroup(gs[|gs| - 1])
  }

  /** Nothing but hex digits, and no empty piece before the last comma. */
  ghost predicate HexPieces(gs: seq<string>)
    requires |gs| >= 1
  {
    (forall i :: 0 <= i < |gs| - 1 ==> |gs[i]| >= 1 && AllHex(gs[i])) && AllHex(gs[|gs| - 1])
  }

  /** The groups before the last comma. */
  ghost function Kept(gs: seq<string>): seq<string>
    requires |gs| >= 1
  {
    gs[..|gs| - 1]
  }

  lemma ReadableGroups(gs: seq<string>)
    requires |gs| >= 1 && Readable(gs)
    ensures AllHexGroups(Kept(gs)) && GroupsFit(Kept(gs))
  {
    hide GroupVal;
  }

  /** Once a digit has been read, white space and then any other character end the scan with code 0. */
  lemma {:induction false} ScanBroken(ws: string, d: char, rest: string, c: char, chunk: nat, nd: nat, total: nat)
    requires AllSpace(ws) && |ws| >= 1 && !IsSpace(d) && d != '\0' && total > 0
    ensures ScanChunk(ws + ([d] + rest), c, chunk, nd, total) == Leave(0)
    decreases |ws|
  {
    var s := ws + ([d] + rest);
    assert s[0] == ws[0] && s[1..] == ws[1..] + ([d] + rest);
    if |ws| == 1 {
      assert s[1..] == [d] + rest;
    } else {
      ScanBroken(ws[1..], d, rest, ws[0], chunk, nd, total);
    }
  }

  /** A piece that is not a hex number is an error. */
  lemma {:induction false} ScanJunk(g: string, tail: string, c: char, chunk: nat, nd: nat, total: nat)
    requires Plain(g) && !AllHex(g) && !(total != 0 && IsSpace(c))
    ensures
      var r := ScanChunk(g + tail, c, chunk, nd, total);
      r == Leave(-EINVAL) || r == Leave(-EOVERFLOW)
    decreases |g|
  {
    assert (g + tail)[0] == g[0] && (g + tail)[1..] == g[1..] + tail;
    assert PlainChar(g[0]);
    if IsXDigit(g[0]) && chunk < 0x1000_0000 {
      ScanJunk(g[1..], tail, g[0], 16 * chunk + Unhex(g[0]), nd + 1, total + 1);
    }
  }

  /** What the inner loop makes of the first piece. */
  ghost predicate PieceScan(gs: seq<string>, tail: string, total: nat, r: Scan)
    requires Pieces(gs)
  {
    var g, more := gs[0], gs[1..];
    if !AllHex(g) then r == Leave(-EINVAL) || r == Leave(-EOVERFLOW)
    else if GroupVal(g) >= 0x1_0000_0000 then r == Leave(-EOVERFLOW)
    else if |gs| == 1 then r == Leave(0)
    else r == Stop(Join(more) + tail, ',', GroupVal(g), |g|, total + |g|)
  }

  lemma ScanPiece(gs: seq<string>, ws: string, d: char, rest: string, c: char, total: nat)
    requires Pieces(gs) && AllSpace(ws) && |ws| >= 1 && !IsSpace(d) && d != '\0'
    requires !(total != 0 && IsSpace(c)) && (total > 0 || gs != [""])
    ensures PieceScan(gs, ws + ([d] + rest), total, ScanChunk(Join(gs) + (ws + ([d] + rest)), c, 0, 0, total))
  {
    hide Acc, IsXDigit, IsSpace;
    var g, more := gs[0], gs[1..];
    var tail := ws + ([d] + rest);
    var after := if |gs| == 1 then tail else "," + (Join(more) + tail);
    assert Join(gs) + tail == g + after;
    CommaIsPlain();
    if !AllHex(g) {
      ScanJunk(g, after, c, 0, 0, total);
    } else {
      ScanDigits(g, after, c, 0, 0, total);
      var last := if |g| == 0 then c else g[|g| - 1];
      if |g| > 0 { DigitIsPlain(last); }
      if GroupVal(g) < 0x1_0000_0000 {
        if |gs| == 1 {
          if |gs[0]| == 0 { assert gs == [""]; }
          ScanBroken(ws, d, rest, last, GroupVal(g), |g|, total + |g|);
        } else {
          assert after[0] == ',' && after[1..] == Join(more) + tail;
        }
      }
    }
  }

  /** The verdict on the pieces: 0 with the number before the last comma, or an error. */
  ghost predicate BrokenVerdict(gs: seq<string>, o: Outcome, value: nat, nmaskbits: nat)
    requires |gs| >= 1
  {
    && (o.ret == 0 || o.ret == -EINVAL || o.ret == -EOVERFLOW)
    && (HexPieces(gs) ==> o.ret != -EINVAL)
    && (o.ret == 0 <==> Readable(gs) && (ReadableGroups(gs); NumAcc(value, Kept(gs)) < Pow2(nmaskbits)))
    && (o.ret == 0 ==> (ReadableGroups(gs); o.value == NumAcc(value, Kept(gs))))
  }

  lemma ReadableTail(gs: seq<string>)
    requires |gs| > 1
    ensures Readable(gs) <==> |gs[0]| >= 1 && SmallGroup(gs[0]) && Readable(gs[1..])
  {
    hide SmallGroup;
    var more := gs[1..];
    if Readable(gs) { assert forall i :: 0 <= i < |more| ==> more[i] == gs[i + 1]; }
    if |gs[0]| >= 1 && SmallGroup(gs[0]) && Readable(more) {
      forall i | 0 <= i < |gs| - 1
        ensures |gs[i]| >= 1 && SmallGroup(gs[i])
      {
        if i > 0 { assert gs[i] == more[i - 1]; }
      }
    }
  }

  lemma BrokenMore(gs: seq<string>, o: Outcome, value: nat, nmaskbits: nat)
    requires |gs| > 1 && |gs[0]| >= 1 && SmallGroup(gs[0])
    requires BrokenVerdict(gs[1..], o, 0x1_0000_0000 * value + GroupVal(gs[0]), nmaskbits)
    ensures BrokenVerdict(gs, o, value, nmaskbits)
  {
    hide GroupVal, Pow2;
    ReadableTail(gs);
    if HexPieces(gs) { assert forall i :: 0 <= i < |gs[1..]| ==> gs[1..][i] == gs[i + 1]; }
    if Readable(gs) {
      ReadableGroups(gs);
      ReadableGroups(gs[1..]);
      assert Kept(gs)[0] == gs[0] && Kept(gs)[1..] == Kept(gs[1..]);
    }
  }

  lemma BrokenTooBig(gs: seq<string>, o: Outcome, value: nat, nmaskbits: nat)
    requires |gs| > 1 && |gs[0]| >= 1 && SmallGroup(gs[0]) && o.ret == -EOVERFLOW
    requires 0x1_0000_0000 * value + GroupVal(gs[0]) >= Pow2(nmaskbits)
    ensures BrokenVerdict(gs, o, value, nmaskbits)
  {
    hide GroupVal, Pow2;
    if Readable(gs) {
      ReadableGroups(gs);
      assert Kept(gs)[0] == gs[0];
      NumAccGrows(0x1_0000_0000 * value + GroupVal(gs[0]), Kept(gs)[1..]);
    }
  }

  lemma {:induction false} LoopOnBroken(gs: seq<string>, ws: string, d: char, rest: string, c: char, total: nat,
                                        nchunks: nat, nbits: nat, value: nat, nmaskbits: nat)
    requires Pieces(gs) && AllSpace(ws) && |ws| >= 1 && !IsSpace(d) && d != '\0'
    requires !(total != 0 && IsSpace(c)) && (total > 0 || gs != [""])
    requires LoopState(nchunks, nbits, value, nmaskbits) && value < Pow2(nmaskbits)
    ensures BrokenVerdict(gs, ParseLoop(Join(gs) + (ws + ([d] + rest)), c, total, nchunks, nbits, value, nmaskbits), value, nmaskbits)
    decreases |gs|
  {
    hide Pow2, BitLength, GroupVal, ScanChunk, Join, IsSpace, Plain;
    var g, more := gs[0], gs[1..];
    var tail := ws + ([d] + rest);
    ScanPiece(gs, ws, d, rest, c, total);
    CommaIsPlain();
    var o := ParseLoop(Join(gs) + tail, c, total, nchunks, nbits, value, nmaskbits);
    if SmallGroup(g) && |gs| > 1 && |g| >= 1 {
      var chunk := GroupVal(g);
      var exact := 0x1_0000_0000 * value + chunk;
      JoinTail(more, tail);
      if nchunks == 0 && chunk == 0 {
        LoopOnBroken(more, ws, d, rest, ',', total + |g|, 0, 0, 0, nmaskbits);
        BrokenMore(gs, o, value, nmaskbits);
      } else {
        ChunkFits(nchunks, nbits, value, chunk, nmaskbits);
        var nbits' := nbits + if nchunks == 0 then BitLength(chunk) else 32;
        if nbits' <= nmaskbits {
          LoopOnBroken(more, ws, d, rest, ',', total + |g|, nchunks + 1, nbits', exact, nmaskbits);
          BrokenMore(gs, o, value, nmaskbits);
        } else {
          BrokenTooBig(gs, o, value, nmaskbits);
        }
      }
    }
  }

  lemma JoinTail(gs: seq<string>, tail: string)
    requires |tail| >= 1
    ensures |Join(gs) + tail| >= 1
  {
  }

  /**
   White space inside the text is not rejected. __bitmap_parse returns 0 if and only if every piece
   before the last comma is a group below 2^32, the piece after it is one or empty, and the number
   before the last comma fits; the mask then denotes that number and the rest is dropped.
   */
  lemma EmbeddedSpace(lead: string, gs: seq<string>, ws: string, d: char, rest: string, nmaskbits: nat)
    requires AllSpace(lead) && Embedded(gs, ws, d)
    ensures BrokenVerdict(gs, Parse(lead + (Join(gs) + (ws + ([d] + rest))), nmaskbits), 0, nmaskbits)
  {
    hide ScanChunk, NumAcc, Join;
    var body := Join(gs) + (ws + ([d] + rest));
    var c := ScanLeading(lead, body, '\0');
    LoopOnBroken(gs, ws, d, rest, c, 0, 0, 0, 0, nmaskbits);
    assert Parse(lead + body, nmaskbits) == ParseLoop(body, c, 0, 0, 0, 0, nmaskbits);
  }

  // ---- every text with embedded white space has that form

  /** The pieces of a text, cut at its commas. */
  function Cut(s: string): (gs: seq<string>)
    ensures |gs| >= 1
  {
    if |s| == 0 then [""]
    else
      var gs := Cut(s[1..]);
      if s[0] == ',' then [""] + gs else [[s[0]] + gs[0]] + gs[1..]
  }

  lemma {:induction false} CutJoins(s: string)
    requires forall i :: 0 <= i < |s| ==> !IsSpace(s[i]) && s[i] != '\0'
    ensures Join(Cut(s)) == s && Pieces(Cut(s)) && (Cut(s) == [""] <==> s == "")
  {
    if |s| > 0 {
      CutJoins(s[1..]);
      var gs := Cut(s[1..]);
      assert s == [s[0]] + s[1..];
      if s[0] == ',' {
        assert ([""] + gs)[1..] == gs;
      } else {
        var hs := [[s[0]] + gs[0]] + gs[1..];
        assert hs[1..] == gs[1..] && hs[0] == [s[0]] + gs[0];
        assert Join(hs) == [s[0]] + Join(gs);
      }
    }
  }

  /** The first position from k on where white space starts (or stops), at most m. */
  lemma {:induction false} RunEnd(s: string, k: nat, m: nat, space: bool) returns (e: nat)
    requires k <= m < |s| && IsSpace(s[m]) != space
    ensures k <= e <= m && IsSpace(s[e]) != space && forall i :: k <= i < e ==> IsSpace(s[i]) == space
    decreases m - k
  {
    if IsSpace(s[k]) != space { e := k; } else { e := RunEnd(s, k + 1, m, space); }
  }

  /** Any text in which white space stands between two other characters can be taken apart that way. */
  lemma EmbeddedForm(s: string, a: nat, b: nat, z: nat)
      returns (lead: string, gs: seq<string>, ws: string, d: char, rest: string)
    requires a < b < z < |s| && !IsSpace(s[a]) && IsSpace(s[b]) && !IsSpace(s[z])
    requires forall i :: 0 <= i <= z ==> s[i] != '\0'
    ensures s == lead + (Join(gs) + (ws + ([d] + rest))) && AllSpace(lead) && Embedded(gs, ws, d)
  {
    hide IsSpace, Join;
    var i := RunEnd(s, 0, a, true);
    var j := RunEnd(s, i, b, false);
    var k := RunEnd(s, j, z, true);
    lead, ws, d, rest := s[..i], s[j..k], s[k], s[k + 1..];
    CutJoins(s[i..j]);
    gs := Cut(s[i..j]);
    TakeApart(s, i, j, k);
  }

  lemma TakeApart(s: string, i: nat, j: nat, k: nat)
    requires i <= j <= k < |s|
    ensures s == s[..i] + (s[i..j] + (s[j..k] + ([s[k]] + s[k + 1..])))
  {
  }

  /** Two texts with white space inside: after a comma, and after a digit. */
  lemma EmbeddedExamples()
    ensures Parse("1, 2", 64) == Outcome(0, 1)
    ensures Parse("1 2", 64) == Outcome(0, 0)
  {
    hide Pow2;
    EmbeddedSpace("", ["1", ""], " ", '2', "", 64);
    EmbeddedSpace("", ["1"], " ", '2', "", 64);
    assert "" + (Join(["1", ""]) + (" " + (['2'] + ""))) == "1, 2";
    assert "" + (Join(["1"]) + (" " + (['2'] + ""))) == "1 2";
    Pow2Values();
    assert GroupVal("1") == Acc(1, "") == 1 && GroupVal("") == 0;
    assert Kept(["1", ""]) == ["1"] && Kept(["1"]) == [];
    assert NumAcc(0, ["1"]) == NumAcc(1, []) == 1;
  }
}
