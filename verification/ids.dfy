/** Record ids: the platform's 15-character case-sensitive record id and its 18-character
    case-insensitive form, which appends one checksum character per 5-character chunk. The
    checksum character encodes which letters of the chunk are upper case (util.py:303-343). */
module RecordIds {
  import opened Strings
  import opened Values

  /** `chunks(l, n)`: successive slices of length `n`; the last one may be shorter. */
  function Chunks(s: string, n: nat): (r: seq<string>)
    requires n > 0
    ensures forall i :: 0 <= i < |r| ==> 0 < |r[i]| <= n
    decreases |s|
  {
    if |s| == 0 then [] else if |s| <= n then [s] else [s[..n]] + Chunks(s[n..], n)
  }

  function Concat(parts: seq<string>): string {
    if |parts| == 0 then "" else parts[0] + Concat(parts[1..])
  }

  /** Gluing the chunks back together gives the original string. */
  lemma {:induction false} ChunksConcat(s: string, n: nat)
    requires n > 0
    ensures Concat(Chunks(s, n)) == s
    decreases |s|
  {
    if |s| > n {
      ChunksConcat(s[n..], n);
      assert [s[..n]] + Chunks(s[n..], n) == Chunks(s, n);
      assert s == s[..n] + s[n..];
    }
  }

  /** `i * n`, counted out one chunk at a time. */
  function Offset(i: nat, n: nat): nat {
    if i == 0 then 0 else Offset(i - 1, n) + n
  }

  lemma {:induction false} OffsetIsProduct(i: nat, n: nat)
    ensures Offset(i, n) == i * n
  {
    if i > 0 {
      OffsetIsProduct(i - 1, n);
      assert i * n == (i - 1) * n + n;
    }
  }

  /** Chunk `i` starts `Offset(i, n)` characters in. */
  lemma {:induction false} ChunkAtOffset(s: string, n: nat, i: nat)
    requires n > 0 && Offset(i, n) < |s|
    ensures i < |Chunks(s, n)|
    ensures Chunks(s, n)[i] == s[Offset(i, n)..if Offset(i, n) + n <= |s| then Offset(i, n) + n else |s|]
    decreases i
  {
    if i > 0 {
      var k, k' := Offset(i, n), Offset(i - 1, n);
      assert n <= k < |s|;
      var t := s[n..];
      assert Chunks(s, n) == [s[..n]] + Chunks(t, n);
      ChunkAtOffset(t, n, i - 1);
      var e' := if k' + n <= |t| then k' + n else |t|;
      assert Chunks(t, n)[i - 1] == t[k'..e'];
      assert t[k'..e'] == s[k..e' + n];
    }
  }

  /** Chunk `i` is the slice `s[i*n : i*n + n]` (cut short at the end of `s`). */
  lemma ChunkAt(s: string, n: nat, i: nat)
    requires n > 0 && i * n < |s|
    ensures i < |Chunks(s, n)|
    ensures Chunks(s, n)[i] == s[i * n..if i * n + n <= |s| then i * n + n else |s|]
  {
    OffsetIsProduct(i, n);
    ChunkAtOffset(s, n, i);
  }

  /** A 15-character id splits into three chunks of five. */
  lemma FifteenChunks(id: string)
    requires |id| == 15
    ensures Chunks(id, 5) == [id[..5], id[5..10], id[10..]]
  {
    assert Chunks(id[10..], 5) == [id[10..]];
    assert id[5..][5..] == id[10..] && id[5..][..5] == id[5..10];
    assert Chunks(id[5..], 5) == [id[5..10], id[10..]];
  }

  /** The chunk read backwards, `"1"` for an upper-case letter and `"0"` for anything else. */
  function CaseBits(chunk: string): (r: string)
    ensures |r| == |chunk|
    ensures forall i :: 0 <= i < |chunk| ==> r[i] == if IsUpperChar(chunk[|chunk| - 1 - i]) then '1' else '0'
  {
    seq(|chunk|, i requires 0 <= i < |chunk| => if IsUpperChar(chunk[|chunk| - 1 - i]) then '1' else '0')
  }

  /** The checksum table `cmap`. */
  const CMAP: map<string, char> := map[
    "00000" := 'A', "00001" := 'B', "00010" := 'C', "00011" := 'D', "00100" := 'E',
    "00101" := 'F', "00110" := 'G', "00111" := 'H', "01000" := 'I', "01001" := 'J',
    "01010" := 'K', "01011" := 'L', "01100" := 'M', "01101" := 'N', "01110" := 'O',
    "01111" := 'P', "10000" := 'Q', "10001" := 'R', "10010" := 'S', "10011" := 'T',
    "10100" := 'U', "10101" := 'V', "10110" := 'W', "10111" := 'X', "11000" := 'Y',
    "11001" := 'Z', "11010" := '0', "11011" := '1', "11100" := '2', "11101" := '3',
    "11110" := '4', "11111" := '5']

  const ALPHABET: string := "ABCDEFGHIJKLMNOPQRSTUVWXYZ012345"

  predicate IsBitString(b: string) {
    |b| == 5 && forall i :: 0 <= i < 5 ==> b[i] == '0' || b[i] == '1'
  }

  function Bit(c: char): nat { if c == '1' then 1 else 0 }

  /** The number a 5-character bit string denotes, most significant bit first. */
  function BitsValue(b: string): (v: nat)
    requires |b| == 5
    ensures v < 32
  {
    16 * Bit(b[0]) + 8 * Bit(b[1]) + 4 * Bit(b[2]) + 2 * Bit(b[3]) + Bit(b[4])
  }

  lemma CmapCovers0000(b: string)
    requires IsBitString(b) && b[..4] == "0000"
    ensures b in CMAP && CMAP[b] == ALPHABET[BitsValue(b)]
  {
    assert b == b[..4] + [b[4]];
    if b[4] == '0' {
      assert b == "00000" && BitsValue(b) == 0 && ALPHABET[0] == 'A';
    } else {
      assert b == "00001" && BitsValue(b) == 1 && ALPHABET[1] == 'B';
    }
  }

  lemma CmapCovers0001(b: string)
    requires IsBitString(b) && b[..4] == "0001"
    ensures b in CMAP && CMAP[b] == ALPHABET[BitsValue(b)]
  {
    assert b == b[..4] + [b[4]];
    if b[4] == '0' {
      assert b == "00010" && BitsValue(b) == 2 && ALPHABET[2] == 'C';
    } else {
      assert b == "00011" && BitsValue(b) == 3 && ALPHABET[3] == 'D';
    }
  }

  lemma CmapCovers0010(b: string)
    requires IsBitString(b) && b[..4] == "0010"
    ensures b in CMAP && CMAP[b] == ALPHABET[BitsValue(b)]
  {
    assert b == b[..4] + [b[4]];
    if b[4] == '0' {
      assert b == "00100" && BitsValue(b) == 4 && ALPHABET[4] == 'E';
    } else {
      assert b == "00101" && BitsValue(b) == 5 && ALPHABET[5] == 'F';
    }
  }

  lemma CmapCovers0011(b: string)
    requires IsBitString(b) && b[..4] == "0011"
    ensures b in CMAP && CMAP[b] == ALPHABET[BitsValue(b)]
  {
    assert b == b[..4] + [b[4]];
    if b[4] == '0' {
      assert b == "00110" && BitsValue(b) == 6 && ALPHABET[6] == 'G';
    } else {
      assert b == "00111" && BitsValue(b) == 7 && ALPHABET[7] == 'H';
    }
  }

  lemma CmapCovers0100(b: string)
    requires IsBitString(b) && b[..4] == "0100"
    ensures b in CMAP && CMAP[b] == ALPHABET[BitsValue(b)]
  {
    assert b == b[..4] + [b[4]];
    if b[4] == '0' {
      assert b == "01000" && BitsValue(b) == 8 && ALPHABET[8] == 'I';
    } else {
      assert b == "01001" && BitsValue(b) == 9 && ALPHABET[9] == 'J';
    }
  }

  lemma CmapCovers0101(b: string)
    requires IsBitString(b) && b[..4] == "0101"
    ensures b in CMAP && CMAP[b] == ALPHABET[BitsValue(b)]
  {
    assert b == b[..4] + [b[4]];
    if b[4] == '0' {
      assert b == "01010" && BitsValue(b) == 10 && ALPHABET[10] == 'K';
    } else {
      assert b == "01011" && BitsValue(b) == 11 && ALPHABET[11] == 'L';
    }
  }

  lemma CmapCovers0110(b: string)
    requires IsBitString(b) && b[..4] == "0110"
    ensures b in CMAP && CMAP[b] == ALPHABET[BitsValue(b)]
  {
    assert b == b[..4] + [b[4]];
    if b[4] == '0' {
      assert b == "01100" && BitsValue(b) == 12 && ALPHABET[12] == 'M';
    } else {
      assert b == "01101" && BitsValue(b) == 13 && ALPHABET[13] == 'N';
    }
  }

  lemma CmapCovers0111(b: string)
    requires IsBitString(b) && b[..4] == "0111"
    ensures b in CMAP && CMAP[b] == ALPHABET[BitsValue(b)]
  {
    assert b == b[..4] + [b[4]];
    if b[4] == '0' {
      assert b == "01110" && BitsValue(b) == 14 && ALPHABET[14] == 'O';
    } else {
      assert b == "01111" && BitsValue(b) == 15 && ALPHABET[15] == 'P';
    }
  }

  lemma CmapCovers1000(b: string)
    requires IsBitString(b) && b[..4] == "1000"
    ensures b in CMAP && CMAP[b] == ALPHABET[BitsValue(b)]
  {
    assert b == b[..4] + [b[4]];
    if b[4] == '0' {
      assert b == "10000" && BitsValue(b) == 16 && ALPHABET[16] == 'Q';
    } else {
      assert b == "10001" && BitsValue(b) == 17 && ALPHABET[17] == 'R';
    }
  }

  lemma CmapCovers1001(b: string)
    requires IsBitString(b) && b[..4] == "1001"
    ensures b in CMAP && CMAP[b] == ALPHABET[BitsValue(b)]
  {
    assert b == b[..4] + [b[4]];
    if b[4] == '0' {
      assert b == "10010" && BitsValue(b) == 18 && ALPHABET[18] == 'S';
    } else {
      assert b == "10011" && BitsValue(b) == 19 && ALPHABET[19] == 'T';
    }
  }

  lemma CmapCovers1010(b: string)
    requires IsBitString(b) && b[..4] == "1010"
    ensures b in CMAP && CMAP[b] == ALPHABET[BitsValue(b)]
  {
    assert b == b[..4] + [b[4]];
    if b[4] == '0' {
      assert b == "10100" && BitsValue(b) == 20 && ALPHABET[20] == 'U';
    } else {
      assert b == "10101" && BitsValue(b) == 21 && ALPHABET[21] == 'V';
    }
  }

  lemma CmapCovers1011(b: string)
    requires IsBitString(b) && b[..4] == "1011"
    ensures b in CMAP && CMAP[b] == ALPHABET[BitsValue(b)]
  {
    assert b == b[..4] + [b[4]];
    if b[4] == '0' {
      assert b == "10110" && BitsValue(b) == 22 && ALPHABET[22] == 'W';
    } else {
      assert b == "10111" && BitsValue(b) == 23 && ALPHABET[23] == 'X';
    }
  }

  lemma CmapCovers1100(b: string)
    requires IsBitString(b) && b[..4] == "1100"
    ensures b in CMAP && CMAP[b] == ALPHABET[BitsValue(b)]
  {
    assert b == b[..4] + [b[4]];
    if b[4] == '0' {
      assert b == "11000" && BitsValue(b) == 24 && ALPHABET[24] == 'Y';
    } else {
      assert b == "11001" && BitsValue(b) == 25 && ALPHABET[25] == 'Z';
    }
  }

  lemma CmapCovers1101(b: string)
    requires IsBitString(b) && b[..4] == "1101"
    ensures b in CMAP && CMAP[b] == ALPHABET[BitsValue(b)]
  {
    assert b == b[..4] + [b[4]];
    if b[4] == '0' {
      assert b == "11010" && BitsValue(b) == 26 && ALPHABET[26] == '0';
    } else {
      assert b == "11011" && BitsValue(b) == 27 && ALPHABET[27] == '1';
    }
  }

  lemma CmapCovers1110(b: string)
    requires IsBitString(b) && b[..4] == "1110"
    ensures b in CMAP && CMAP[b] == ALPHABET[BitsValue(b)]
  {
    assert b == b[..4] + [b[4]];
    if b[4] == '0' {
      assert b == "11100" && BitsValue(b) == 28 && ALPHABET[28] == '2';
    } else {
      assert b == "11101" && BitsValue(b) == 29 && ALPHABET[29] == '3';
    }
  }

  lemma CmapCovers1111(b: string)
    requires IsBitString(b) && b[..4] == "1111"
    ensures b in CMAP && CMAP[b] == ALPHABET[BitsValue(b)]
  {
    assert b == b[..4] + [b[4]];
    if b[4] == '0' {
      assert b == "11110" && BitsValue(b) == 30 && ALPHABET[30] == '4';
    } else {
      assert b == "11111" && BitsValue(b) == 31 && ALPHABET[31] == '5';
    }
  }

  /** The table has an entry for every one of the 32 bit patterns, and entry `b` is the
      `b`-th character of `A`..`Z`, `0`..`5`. */
  lemma CmapCovers(b: string)
    requires IsBitString(b)
    ensures b in CMAP && CMAP[b] == ALPHABET[BitsValue(b)]
  {
    var p := b[..4];
    assert p == [b[0], b[1], b[2], b[3]];
    if p == "0000" { CmapCovers0000(b); }
    else if p == "0001" { CmapCovers0001(b); }
    else if p == "0010" { CmapCovers0010(b); }
    else if p == "0011" { CmapCovers0011(b); }
    else if p == "0100" { CmapCovers0100(b); }
    else if p == "0101" { CmapCovers0101(b); }
    else if p == "0110" { CmapCovers0110(b); }
    else if p == "0111" { CmapCovers0111(b); }
    else if p == "1000" { CmapCovers1000(b); }
    else if p == "1001" { CmapCovers1001(b); }
    else if p == "1010" { CmapCovers1010(b); }
    else if p == "1011" { CmapCovers1011(b); }
    else if p == "1100" { CmapCovers1100(b); }
    else if p == "1101" { CmapCovers1101(b); }
    else if p == "1110" { CmapCovers1110(b); }
    else { assert p == "1111"; CmapCovers1111(b); }
  }


  /** The checksum character of one 5-character chunk. */
  function ChunkChar(chunk: string): (c: char)
    requires |chunk| == 5
    ensures c == ALPHABET[BitsValue(CaseBits(chunk))]
  {
    var bits := CaseBits(chunk);
    CmapCovers(bits);
    CMAP[bits]
  }

  /** `convert_15_to_18`: `None`, the empty string and anything not exactly 15 characters long
      come back unchanged; a 15-character id gets its three checksum characters appended. */
  function Convert15To18(id: Option<string>): (r: Option<string>)
    ensures id.None? || |id.value| != 15 ==> r == id
    ensures id.Some? && |id.value| == 15 ==>
      r.Some? && |r.value| == 18 && r.value[..15] == id.value
  {
    match id
    case None => id
    case Some(s) =>
      if |s| == 0 || |s| != 15 then id
      else
        FifteenChunks(s);
        var chunks := Chunks(s, 5);
        Some(s + seq(|chunks|, i requires 0 <= i < |chunks| => ChunkChar(chunks[i])))
  }

  /** Checksum character `i` is the checksum character of chunk `i`. */
  lemma SuffixChar(id: string, i: nat)
    requires |id| == 15 && i < 3
    ensures Convert15To18(Some(id)).value[15 + i] == ChunkChar(id[5 * i..5 * i + 5])
  {
    FifteenChunks(id);
    var chunks := Chunks(id, 5);
    var suffix := seq(|chunks|, k requires 0 <= k < |chunks| => ChunkChar(chunks[k]));
    assert Convert15To18(Some(id)) == Some(id + suffix);
    assert (id + suffix)[15 + i] == suffix[i];
    assert chunks[i] == id[5 * i..5 * i + 5];
  }

  /** The position of an alphabet character: `A`..`Z` are 0..25 and `0`..`5` are 26..31. */
  function AlphabetIndex(c: char): int {
    if 'A' <= c <= 'Z' then c as int - 'A' as int else c as int - '0' as int + 26
  }

  lemma AlphabetIndexInverse(x: nat)
    requires x < 32
    ensures AlphabetIndex(ALPHABET[x]) == x
  {
  }

  /** The 32 characters of the alphabet are all different. */
  lemma AlphabetDistinct(x: nat, y: nat)
    requires x < 32 && y < 32 && ALPHABET[x] == ALPHABET[y]
    ensures x == y
  {
    AlphabetIndexInverse(x);
    AlphabetIndexInverse(y);
  }

  lemma BitsValueInjective(a: string, b: string)
    requires IsBitString(a) && IsBitString(b) && BitsValue(a) == BitsValue(b)
    ensures a == b
  {
    assert forall i :: 0 <= i < 5 ==> (a[i] == '1' <==> b[i] == '1');
  }

  /** Two chunks get the same checksum character exactly when they have upper-case letters in
      the same positions: the character depends on the case pattern and on nothing else. */
  lemma ChunkCharIff(c1: string, c2: string)
    requires |c1| == 5 && |c2| == 5
    ensures ChunkChar(c1) == ChunkChar(c2) <==> forall j :: 0 <= j < 5 ==> (IsUpperChar(c1[j]) <==> IsUpperChar(c2[j]))
  {
    var b1, b2 := CaseBits(c1), CaseBits(c2);
    assert IsBitString(b1) && IsBitString(b2);
    if ChunkChar(c1) == ChunkChar(c2) {
      AlphabetDistinct(BitsValue(b1), BitsValue(b2));
      BitsValueInjective(b1, b2);
      forall j | 0 <= j < 5
        ensures IsUpperChar(c1[j]) <==> IsUpperChar(c2[j])
      {
        assert b1[4 - j] == b2[4 - j];
      }
    }
    if forall j :: 0 <= j < 5 ==> (IsUpperChar(c1[j]) <==> IsUpperChar(c2[j])) {
      assert b1 == b2;
    }
  }

  /** Two 15-character ids get the same checksum character `i` exactly when chunk `i` of both
      has upper-case letters in the same positions. */
  lemma SameSuffixIffSameCasePattern(id1: string, id2: string, i: nat)
    requires |id1| == 15 && |id2| == 15 && i < 3
    ensures Convert15To18(Some(id1)).value[15 + i] == Convert15To18(Some(id2)).value[15 + i]
        <==> forall j :: 5 * i <= j < 5 * i + 5 ==> (IsUpperChar(id1[j]) <==> IsUpperChar(id2[j]))
  {
    var c1, c2 := id1[5 * i..5 * i + 5], id2[5 * i..5 * i + 5];
    SuffixChar(id1, i);
    SuffixChar(id2, i);
    ChunkCharIff(c1, c2);
    SameChunkPattern(id1, id2, 5 * i);
  }

  /** Two 5-character slices at the same offset share their case pattern exactly when the
      strings do at those positions. */
  lemma SameChunkPattern(id1: string, id2: string, start: nat)
    requires start + 5 <= |id1| && start + 5 <= |id2|
    ensures var c1, c2 := id1[start..start + 5], id2[start..start + 5];
      (forall j :: 0 <= j < 5 ==> (IsUpperChar(c1[j]) <==> IsUpperChar(c2[j])))
      <==> forall j :: start <= j < start + 5 ==> (IsUpperChar(id1[j]) <==> IsUpperChar(id2[j]))
  {
    var c1, c2 := id1[start..start + 5], id2[start..start + 5];
    if forall j :: 0 <= j < 5 ==> (IsUpperChar(c1[j]) <==> IsUpperChar(c2[j])) {
      forall j | start <= j < start + 5
        ensures IsUpperChar(id1[j]) <==> IsUpperChar(id2[j])
      {
        assert c1[j - start] == id1[j] && c2[j - start] == id2[j];
      }
    }
  }

}
