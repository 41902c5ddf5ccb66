/** The string functions of JavaScript that the views rely on: `trim`,
    `toLowerCase` (restricted to ASCII letters), `includes`, `split` on one
    character, `join`, `localeCompare` (as code-point order), and the
    comma-separated tag lists built from them. */
module Text {
  import opened Seqs

  /** The characters `String.prototype.trim` removes: the ECMAScript
      WhiteSpace and LineTerminator code points. */
  predicate IsSpace(c: char)
  {
    || c == '\t' || c == '\n' || c == '\U{000B}' || c == '\U{000C}' || c == '\r'
    || c == ' ' || c == '\U{00A0}' || c == '\U{1680}' || ('\U{2000}' <= c <= '\U{200A}')
    || c == '\U{2028}' || c == '\U{2029}' || c == '\U{202F}' || c == '\U{205F}'
    || c == '\U{3000}' || c == '\U{FEFF}'
  }

  /** Neither end of `s` is whitespace. */
  predicate NoEdgeSpace(s: string)
  {
    |s| == 0 || (!IsSpace(s[0]) && !IsSpace(s[|s| - 1]))
  }

  predicate AllSpace(s: string)
  {
    forall i :: 0 <= i < |s| ==> IsSpace(s[i])
  }

  function TrimStart(s: string): (r: string)
    ensures |r| <= |s| && r == s[|s| - |r|..]
    ensures AllSpace(s[..|s| - |r|])
    ensures |r| == 0 || !IsSpace(r[0])
  {
    if |s| > 0 && IsSpace(s[0]) then TrimStart(s[1..]) else s
  }

  function TrimEnd(s: string): (r: string)
    ensures |r| <= |s| && r == s[..|r|]
    ensures AllSpace(s[|r|..])
    ensures |r| == 0 || !IsSpace(r[|r| - 1])
  {
    if |s| > 0 && IsSpace(s[|s| - 1]) then TrimEnd(s[..|s| - 1]) else s
  }

  /** `s.trim()`: `s` without its leading and trailing whitespace. */
  function Trim(s: string): (r: string)
    ensures NoEdgeSpace(r)
  {
    TrimEnd(TrimStart(s))
  }

  /** A prefix of a suffix is a slice. */
  lemma PrefixOfSuffix(s: string, i: nat, t: string, r: string)
    requires i <= |s| && t == s[i..] && |r| <= |t| && r == t[..|r|]
    ensures r == s[i..i + |r|]
  {
  }

  /** A suffix of a suffix is a suffix. */
  lemma SuffixOfSuffix(s: string, i: nat, t: string, k: nat)
    requires i <= |s| && t == s[i..] && k <= |t|
    ensures t[k..] == s[i + k..]
  {
  }

  /** Where the trimmed string sits in the original. */
  lemma TrimWindow(s: string) returns (i: nat)
    ensures i <= |s| - |Trim(s)| && Trim(s) == s[i..i + |Trim(s)|]
    ensures AllSpace(s[..i]) && AllSpace(s[i + |Trim(s)|..])
  {
    var t := TrimStart(s);
    var r := TrimEnd(t);
    i := |s| - |t|;
    PrefixOfSuffix(s, i, t, r);
    SuffixOfSuffix(s, i, t, |r|);
  }

  /** What trimming removes is whitespace, from the two ends only. */
  lemma TrimInfix(s: string)
    ensures exists i ::
              0 <= i <= |s| - |Trim(s)| && Trim(s) == s[i..i + |Trim(s)|]
              && AllSpace(s[..i]) && AllSpace(s[i + |Trim(s)|..])
  {
    var i := TrimWindow(s);
    assert 0 <= i <= |s| - |Trim(s)| && Trim(s) == s[i..i + |Trim(s)|];
  }

  /** Trimming changes nothing exactly when there is no whitespace at either end. */
  lemma TrimIdentity(s: string)
    ensures Trim(s) == s <==> NoEdgeSpace(s)
  {
    if NoEdgeSpace(s) {
      assert TrimStart(s) == s;
      assert TrimEnd(s) == s;
    }
  }

  /** A string is blank (`!s.trim()`) exactly when every character is whitespace. */
  lemma TrimEmpty(s: string)
    ensures |Trim(s)| == 0 <==> AllSpace(s)
  {
    var t := TrimStart(s);
    if |t| > 0 {
      assert !IsSpace(t[0]) && t[0] == s[|s| - |t|];
      assert t[0..] == t;
      assert |TrimEnd(t)| > 0;
    } else {
      assert s[..|s|] == s;
    }
  }

  lemma TrimLeadingSpace(s: string)
    ensures Trim(" " + s) == Trim(s)
  {
    assert (" " + s)[1..] == s;
  }

  /** ASCII case folding: `toLowerCase` on the letters A to Z. */
  function LowerChar(c: char): (r: char)
    ensures 'A' <= c <= 'Z' ==> 'a' <= r <= 'z'
  {
    if 'A' <= c <= 'Z' then (c as int + 32) as char else c
  }

  function Lower(s: string): (r: string)
    ensures |r| == |s|
    ensures forall i :: 0 <= i < |s| ==> r[i] == LowerChar(s[i])
  {
    seq(|s|, i requires 0 <= i < |s| => LowerChar(s[i]))
  }

  lemma LowerIdempotent(s: string)
    ensures Lower(Lower(s)) == Lower(s)
  {
  }

  /** `needle` occurs in `hay` starting at position `i`. */
  predicate OccursAt(hay: string, needle: string, i: int)
  {
    0 <= i && i + |needle| <= |hay| && hay[i..i + |needle|] == needle
  }

  /** `hay.includes(needle)`. */
  predicate Includes(hay: string, needle: string)
  {
    exists i :: 0 <= i <= |hay| - |needle| && OccursAt(hay, needle, i)
  }

  /** The empty string occurs in every string, so `includes('')` is always true. */
  lemma IncludesEmpty(hay: string)
    ensures Includes(hay, "")
  {
    assert OccursAt(hay, "", 0);
  }

  /** A string occurs at the end of anything it ends. */
  lemma IncludesSuffix(prefix: string, s: string)
    ensures Includes(prefix + s, s)
  {
    assert (prefix + s)[|prefix|..|prefix| + |s|] == s;
    assert OccursAt(prefix + s, s, |prefix|);
  }

  /** A needle holding a character the haystack lacks does not occur in it. */
  lemma MissingCharExcludes(hay: string, needle: string, c: char)
    requires c in needle && c !in hay
    ensures !Includes(hay, needle)
  {
  }

  lemma OccurrenceWindow(hay: string, needle: string, i: int)
    requires OccursAt(hay, needle, i)
    ensures forall j :: i <= j < i + |needle| ==> hay[j] == needle[j - i]
  {
  }

  /** An occurrence cannot straddle a character the needle lacks. */
  lemma IncludesSplitAt(a: string, c: char, b: string, needle: string)
    requires c !in needle
    ensures Includes(a + [c] + b, needle) ==> Includes(a, needle) || Includes(b, needle)
  {
    var hay := a + [c] + b;
    if Includes(hay, needle) {
      var i :| 0 <= i <= |hay| - |needle| && OccursAt(hay, needle, i);
      OccurrenceWindow(hay, needle, i);
      assert hay[|a|] == c;
      if i + |needle| <= |a| {
        assert hay[i..i + |needle|] == a[i..i + |needle|];
        assert OccursAt(a, needle, i);
      } else if i > |a| {
        assert hay[i..i + |needle|] == b[i - |a| - 1..i - |a| - 1 + |needle|];
        assert OccursAt(b, needle, i - |a| - 1);
      }
    }
  }

  /** Case-insensitive containment as the views test it: both sides lowered. */
  predicate IncludesIgnoringCase(hay: string, needle: string)
  {
    Includes(Lower(hay), Lower(needle))
  }

  /** `s.split(sep)` for a one-character separator: the pieces between
      separators; there is always at least one piece. */
  function Split(s: string, sep: char): (r: seq<string>)
    ensures |r| >= 1
    ensures forall i :: 0 <= i < |r| ==> sep !in r[i]
  {
    if |s| == 0 then [""]
    else
      var rest := Split(s[1..], sep);
      if s[0] == sep then [""] + rest
      else [[s[0]] + rest[0]] + rest[1..]
  }

  /** `pieces.join(sep)`. */
  function Join(pieces: seq<string>, sep: string): string
  {
    if |pieces| == 0 then ""
    else if |pieces| == 1 then pieces[0]
    else pieces[0] + sep + Join(pieces[1..], sep)
  }

  lemma {:induction false} SplitNoSeparator(s: string, sep: char)
    requires sep !in s
    ensures Split(s, sep) == [s]
  {
    if |s| > 0 {
      SplitNoSeparator(s[1..], sep);
      assert [s[0]] + s[1..] == s;
    }
  }

  lemma {:induction false} SplitAppend(a: string, b: string, sep: char)
    requires sep !in a
    ensures Split(a + [sep] + b, sep) == [a] + Split(b, sep)
  {
    if |a| == 0 {
      assert a + [sep] + b == [sep] + b;
      assert ([sep] + b)[1..] == b;
    } else {
      assert (a + [sep] + b)[1..] == a[1..] + [sep] + b;
      SplitAppend(a[1..], b, sep);
      assert [a[0]] + a[1..] == a;
    }
  }

  lemma {:induction false} SplitConsNonSeparator(c: char, s: string, sep: char)
    requires c != sep
    ensures Split([c] + s, sep) == [[c] + Split(s, sep)[0]] + Split(s, sep)[1..]
  {
    assert ([c] + s)[1..] == s;
  }

  /** Splitting and joining with the same character are inverse:
      `s.split(c).join(c) == s`. */
  lemma {:induction false} JoinSplit(s: string, c: char)
    ensures Join(Split(s, c), [c]) == s
  {
    if |s| > 0 {
      JoinSplit(s[1..], c);
      var rest := Split(s[1..], c);
      if s[0] == c {
        assert Split(s, c) == [""] + rest;
        assert s == [c] + s[1..];
      } else {
        var ps := Split(s, c);
        assert ps == [[s[0]] + rest[0]] + rest[1..];
        if |rest| == 1 {
          assert s == [s[0]] + rest[0];
        } else {
          assert ps[1..] == rest[1..];
          assert Join(rest, [c]) == rest[0] + [c] + Join(rest[1..], [c]);
          assert s == [s[0]] + s[1..];
        }
      }
    }
  }

  /** There is one piece more than there are separators. */
  lemma {:induction false} SplitCount(s: string, sep: char)
    ensures |Split(s, sep)| == multiset(s)[sep] + 1
  {
    if |s| > 0 {
      SplitCount(s[1..], sep);
      assert s == [s[0]] + s[1..];
    }
  }

  /** The pieces after position `k`, joined, are a suffix of the whole join. */
  lemma {:induction false} JoinSuffix(ps: seq<string>, sep: string, k: nat)
    requires k < |ps|
    ensures exists pre :: Join(ps, sep) == pre + Join(ps[k..], sep)
  {
    if k == 0 {
      assert ps[0..] == ps;
      assert Join(ps, sep) == "" + Join(ps[k..], sep);
    } else {
      JoinSuffix(ps[1..], sep, k - 1);
      assert ps[1..][k - 1..] == ps[k..];
      var pre :| Join(ps[1..], sep) == pre + Join(ps[k..], sep);
      assert Join(ps, sep) == (ps[0] + sep + pre) + Join(ps[k..], sep);
    }
  }

  // ---------------------------------------------------------------------
  // Comma-separated tag lists:
  // `s.split(',').map(t => t.trim()).filter(t => t.length > 0)`

  function TrimAll(ps: seq<string>): (r: seq<string>)
    ensures |r| == |ps|
    ensures forall i :: 0 <= i < |ps| ==> r[i] == Trim(ps[i])
  {
    Map(ps, Trim)
  }

  predicate IsNonEmpty(t: string)
  {
    |t| > 0
  }

  function NonEmpty(ps: seq<string>): seq<string>
  {
    Filter(ps, IsNonEmpty)
  }

  function CleanPieces(ps: seq<string>): seq<string>
  {
    NonEmpty(TrimAll(ps))
  }

  /** The tag list a comma-separated input field stands for. */
  function ParseTags(s: string): seq<string>
  {
    CleanPieces(Split(s, ','))
  }

  /** A tag that survives a join-then-parse unchanged: not empty, no comma,
      no whitespace at either end. */
  predicate CleanTag(t: string)
  {
    |t| > 0 && ',' !in t && NoEdgeSpace(t)
  }

  /** Trimming never introduces a character. */
  lemma TrimExcludes(s: string, c: char)
    requires c !in s
    ensures c !in Trim(s)
  {
    var t := TrimStart(s);
    forall k | 0 <= k < |t| ensures t[k] != c {
      assert t[k] == s[|s| - |t| + k];
    }
    var r := TrimEnd(t);
    forall k | 0 <= k < |r| ensures r[k] != c {
      assert r[k] == t[k];
    }
  }

  /** Every parsed tag is clean. */
  lemma ParseTagsClean(s: string)
    ensures forall t :: t in ParseTags(s) ==> CleanTag(t)
  {
    var ps := Split(s, ',');
    var trimmed := TrimAll(ps);
    forall t | t in ParseTags(s) ensures CleanTag(t) {
      assert t in trimmed && IsNonEmpty(t);
      var i :| 0 <= i < |trimmed| && trimmed[i] == t;
      TrimExcludes(ps[i], ',');
    }
  }

  lemma CleanPiecesConcat(a: seq<string>, b: seq<string>)
    ensures CleanPieces(a + b) == CleanPieces(a) + CleanPieces(b)
  {
    MapConcat(a, b, Trim);
    FilterConcat(TrimAll(a), TrimAll(b), IsNonEmpty);
  }

  lemma ParseTagsLeadingSpace(s: string)
    ensures ParseTags(" " + s) == ParseTags(s)
  {
    var rest := Split(s, ',');
    SplitConsNonSeparator(' ', s, ',');
    assert Split(" " + s, ',') == [" " + rest[0]] + rest[1..];
    TrimLeadingSpace(rest[0]);
    assert TrimAll(Split(" " + s, ',')) == TrimAll(rest);
  }

  /** The list-to-field-to-list round trip: joining clean tags with `", "` and
      parsing the field gives the same list back. */
  lemma TrimAllSingle(t: string)
    requires NoEdgeSpace(t)
    ensures TrimAll([t]) == [t]
  {
    TrimIdentity(t);
  }

  lemma NonEmptySingle(t: string)
    requires |t| > 0
    ensures NonEmpty([t]) == [t]
  {
    assert IsNonEmpty([t][0]);
  }

  /** A clean tag alone in the field is that one tag. */
  lemma ParseSingle(t: string)
    requires CleanTag(t)
    ensures ParseTags(t) == [t]
  {
    SplitNoSeparator(t, ',');
    TrimAllSingle(t);
    NonEmptySingle(t);
  }

  /** A clean tag followed by `", "` and more of the field. */
  lemma ParseCons(t: string, tail: string)
    requires CleanTag(t)
    ensures ParseTags(t + [','] + (" " + tail)) == [t] + ParseTags(tail)
  {
    ParseSingle(t);
    SplitAppend(t, " " + tail, ',');
    CleanPiecesConcat(Split(t, ','), Split(" " + tail, ','));
    ParseTagsLeadingSpace(tail);
  }

  lemma {:induction false} ParseJoin(ts: seq<string>)
    requires forall i :: 0 <= i < |ts| ==> CleanTag(ts[i])
    ensures ParseTags(Join(ts, ", ")) == ts
  {
    if |ts| == 0 {
      assert Split("", ',') == [""];
      assert TrimAll([""]) == [""];
    } else if |ts| == 1 {
      ParseSingle(ts[0]);
    } else {
      var tail := Join(ts[1..], ", ");
      assert Join(ts, ", ") == ts[0] + [','] + (" " + tail);
      ParseCons(ts[0], tail);
      ParseJoin(ts[1..]);
    }
  }

  /** Parsing is a normalisation: parsing the joined result of a parse
      changes nothing. */
  lemma ParseTagsIdempotent(s: string)
    ensures ParseTags(Join(ParseTags(s), ", ")) == ParseTags(s)
  {
    ParseTagsClean(s);
    ParseJoin(ParseTags(s));
  }

  // ---------------------------------------------------------------------
  // `localeCompare`, modelled as code-point lexicographic order.

  /** `a` sorts no later than `b`. */
  predicate StrLe(a: string, b: string)
  {
    if |a| == 0 then true
    else if |b| == 0 then false
    else if a[0] != b[0] then a[0] < b[0]
    else StrLe(a[1..], b[1..])
  }

  lemma {:induction false} StrLeTotal(a: string, b: string)
    ensures StrLe(a, b) || StrLe(b, a)
  {
    if |a| > 0 && |b| > 0 && a[0] == b[0] {
      StrLeTotal(a[1..], b[1..]);
    }
  }

  lemma {:induction false} StrLeTransitive(a: string, b: string, c: string)
    requires StrLe(a, b) && StrLe(b, c)
    ensures StrLe(a, c)
  {
    if |a| > 0 && |b| > 0 && |c| > 0 && a[0] == b[0] && b[0] == c[0] {
      StrLeTransitive(a[1..], b[1..], c[1..]);
    }
  }

  // ---------------------------------------------------------------------
  // Number formatting for template literals such as `${n} days ago`.

  function DigitChar(d: nat): char
    requires d < 10
  {
    "0123456789"[d]
  }

  function NatToString(n: nat): (r: string)
    ensures |r| >= 1
  {
    if n < 10 then [DigitChar(n)] else NatToString(n / 10) + [DigitChar(n % 10)]
  }

  function IntToString(n: int): string
  {
    if n < 0 then "-" + NatToString(-n) else NatToString(n)
  }
}
