/** Optional values and the outcome of a call into code outside the model
    (the REST backend, the browser's Bluetooth stack). */
module Wrappers {

  datatype Option<+T> = None | Some(value: T) {
    /** `x ?? d`: the value, or the default when absent. */
    function GetOr(default: T): T {
      match this
      case Some(v) => v
      case None => default
    }
  }

  /** The settled result of an awaited promise: resolved with a value, or rejected
      with an error carrying the JavaScript `name` and `message` properties. */
  datatype Call<+T> = Ok(value: T) | Fail(name: string, message: string)
}

/** The string operations the source uses, with JavaScript's meaning. */
module Text {
  import opened Lists

  /** The characters matched by `\s` and removed by `String.prototype.trim`. */
  predicate IsWhitespace(c: char) {
    var n := c as int;
    (9 <= n <= 13) || n == 0x20 || n == 0xA0 || n == 0x1680 || (0x2000 <= n <= 0x200A)
    || n == 0x2028 || n == 0x2029 || n == 0x202F || n == 0x205F || n == 0x3000 || n == 0xFEFF
  }

  predicate IsBlank(s: string) {
    forall i :: 0 <= i < |s| ==> IsWhitespace(s[i])
  }

  function TrimStart(s: string): (r: string)
    ensures |r| <= |s| && r == s[|s| - |r|..]
    ensures r != [] ==> !IsWhitespace(r[0])
  {
    if s != [] && IsWhitespace(s[0]) then TrimStart(s[1..]) else s
  }

  function TrimEnd(s: string): (r: string)
    ensures |r| <= |s| && r == s[..|r|]
    ensures r != [] ==> !IsWhitespace(r[|r| - 1])
  {
    if s != [] && IsWhitespace(s[|s| - 1]) then TrimEnd(s[..|s| - 1]) else s
  }

  /** `s.trim()` */
  function Trim(s: string): (r: string)
    ensures |r| <= |s|
    ensures r != [] ==> !IsWhitespace(r[0]) && !IsWhitespace(r[|r| - 1])
  {
    TrimEnd(TrimStart(s))
  }

  lemma {:induction false} TrimStartBlank(s: string)
    ensures TrimStart(s) == [] <==> IsBlank(s)
  {
    if s != [] && IsWhitespace(s[0]) {
      TrimStartBlank(s[1..]);
      BlankCauda(s);
    } else if s != [] {
      assert !IsWhitespace(s[0]);
    }
  }

  /** A string that starts with whitespace is blank iff its tail is. */
  lemma BlankCauda(s: string)
    requires s != [] && IsWhitespace(s[0])
    ensures IsBlank(s) <==> IsBlank(s[1..])
  {
    if IsBlank(s[1..]) {
      forall i | 0 <= i < |s| ensures IsWhitespace(s[i]) {
        if i > 0 { assert s[i] == s[1..][i - 1]; }
      }
    }
  }

  /** `s.trim() === ""` exactly when every character of `s` is whitespace. */
  lemma TrimEmptyIffBlank(s: string)
    ensures Trim(s) == [] <==> IsBlank(s)
  {
    TrimStartBlank(s);
    var t := TrimStart(s);
    if t != [] {
      assert !IsWhitespace(t[0]);
      assert TrimEnd(t) != [] by {
        if TrimEnd(t) == [] {
          TrimEndBlank(t);
        }
      }
    }
  }

  lemma {:induction false} TrimEndBlank(s: string)
    ensures TrimEnd(s) == [] <==> IsBlank(s)
  {
    if s != [] && IsWhitespace(s[|s| - 1]) {
      var p := s[..|s| - 1];
      TrimEndBlank(p);
      if IsBlank(p) {
        forall i | 0 <= i < |s| ensures IsWhitespace(s[i]) {
          if i < |s| - 1 { assert s[i] == p[i]; }
        }
      }
      if IsBlank(s) {
        forall i | 0 <= i < |p| ensures IsWhitespace(p[i]) {
          assert p[i] == s[i];
        }
      }
    } else if s != [] {
      assert !IsWhitespace(s[|s| - 1]);
    }
  }

  /** `toLowerCase` on the ASCII letters (other characters are kept). */
  function LowerChar(c: char): char {
    if 'A' <= c <= 'Z' then (c as int + 32) as char else c
  }

  function ToLower(s: string): (r: string)
    ensures |r| == |s|
    ensures forall i :: 0 <= i < |s| ==> r[i] == LowerChar(s[i])
  {
    seq(|s|, i requires 0 <= i < |s| => LowerChar(s[i]))
  }

  lemma ToLowerIdempotent(s: string)
    ensures ToLower(ToLower(s)) == ToLower(s)
  {
  }

  predicate IsPrefix(p: string, s: string) {
    |p| <= |s| && s[..|p|] == p
  }

  /** `s.startsWith(p)` */
  predicate StartsWith(s: string, p: string) {
    IsPrefix(p, s)
  }

  /** `s.includes(sub)` */
  predicate Contains(s: string, sub: string) {
    IsPrefix(sub, s) || (s != [] && Contains(s[1..], sub))
  }

  lemma ContainsEmpty(s: string)
    ensures Contains(s, "")
  {
  }

  predicate OccursAt(s: string, sub: string, k: int) {
    0 <= k && k + |sub| <= |s| && s[k..k + |sub|] == sub
  }

  /** `includes` finds `sub` exactly when it occurs at some offset of `s`. */
  lemma {:induction false} ContainsIffOccurs(s: string, sub: string)
    ensures Contains(s, sub) <==> exists k :: OccursAt(s, sub, k)
  {
    if IsPrefix(sub, s) {
      assert OccursAt(s, sub, 0);
    } else if s == [] {
    } else {
      ContainsIffOccurs(s[1..], sub);
      if exists k :: OccursAt(s, sub, k) {
        var k :| OccursAt(s, sub, k);
        assert k != 0;
        assert OccursAt(s[1..], sub, k - 1) by {
          assert s[1..][k - 1..k - 1 + |sub|] == s[k..k + |sub|];
        }
      }
      if exists k :: OccursAt(s[1..], sub, k) {
        var k :| OccursAt(s[1..], sub, k);
        assert OccursAt(s, sub, k + 1) by {
          assert s[1..][k..k + |sub|] == s[k + 1..k + 1 + |sub|];
        }
      }
    }
  }

  /** `s.replace(/\s+/g, "")` */
  function RemoveWhitespace(s: string): (r: string)
    ensures forall i :: 0 <= i < |r| ==> !IsWhitespace(r[i])
    ensures |r| <= |s|
  {
    if s == [] then []
    else if IsWhitespace(s[0]) then RemoveWhitespace(s[1..])
    else [s[0]] + RemoveWhitespace(s[1..])
  }

  /** A string without whitespace is left as it is. */
  lemma {:induction false} RemoveWhitespaceSemEspaco(s: string)
    requires forall i :: 0 <= i < |s| ==> !IsWhitespace(s[i])
    ensures RemoveWhitespace(s) == s
  {
    if s != [] {
      RemoveWhitespaceSemEspaco(s[1..]);
    }
  }

  /** Removing whitespace works character by character, so it distributes over
      concatenation. */
  lemma {:induction false} RemoveWhitespaceConcat(s: string, t: string)
    ensures RemoveWhitespace(s + t) == RemoveWhitespace(s) + RemoveWhitespace(t)
  {
    if s == [] {
      assert s + t == t;
    } else {
      assert (s + t)[1..] == s[1..] + t;
      RemoveWhitespaceConcat(s[1..], t);
    }
  }

  predicate NaoEspaco(c: char) {
    !IsWhitespace(c)
  }

  /** `replace(/\s+/g, "")` keeps exactly the non-whitespace characters, in order. */
  lemma {:induction false} RemoveWhitespaceFiltra(s: string)
    ensures RemoveWhitespace(s) == Filter(s, NaoEspaco)
  {
    if s != [] {
      RemoveWhitespaceFiltra(s[1..]);
    }
  }

  /** Dropping a leading whitespace run does not change what survives removal. */
  lemma {:induction false} RemoveWhitespaceTrimStart(s: string)
    ensures RemoveWhitespace(TrimStart(s)) == RemoveWhitespace(s)
  {
    if s != [] && IsWhitespace(s[0]) {
      RemoveWhitespaceTrimStart(s[1..]);
    }
  }

  /** `s.replace(/\s+/g, sep)`: every maximal run of whitespace becomes `sep`;
      with an empty separator this is `RemoveWhitespace`. */
  function ReplaceWhitespaceRuns(s: string, sep: string): (r: string)
    ensures sep == [] ==> r == RemoveWhitespace(s)
  {
    if s == [] then []
    else if IsWhitespace(s[0]) then
      RemoveWhitespaceTrimStart(s);
      sep + ReplaceWhitespaceRuns(TrimStart(s), sep)
    else [s[0]] + ReplaceWhitespaceRuns(s[1..], sep)
  }

  /** A whitespace run in front of a text that does not start with whitespace
      is exactly what `TrimStart` drops. */
  lemma {:induction false} TrimStartRun(w: string, b: string)
    requires IsBlank(w)
    requires b == [] || !IsWhitespace(b[0])
    ensures TrimStart(w + b) == b
  {
    if w == [] {
      assert w + b == b;
    } else {
      assert (w + b)[0] == w[0];
      assert (w + b)[1..] == w[1..] + b;
      assert IsBlank(w[1..]) by {
        forall i | 0 <= i < |w[1..]| ensures IsWhitespace(w[1..][i]) {
          assert w[1..][i] == w[i + 1];
        }
      }
      TrimStartRun(w[1..], b);
    }
  }

  /** The text up to the first whitespace run is kept, the run becomes one `sep`,
      and the replacement goes on after it. */
  lemma {:induction false} ReplaceWhitespaceRunsDecompoe(a: string, w: string, b: string, sep: string)
    requires forall i :: 0 <= i < |a| ==> !IsWhitespace(a[i])
    requires w != [] && IsBlank(w)
    requires b == [] || !IsWhitespace(b[0])
    ensures ReplaceWhitespaceRuns(a + w + b, sep) == a + sep + ReplaceWhitespaceRuns(b, sep)
  {
    if a == [] {
      assert a + w + b == w + b;
      assert (w + b)[0] == w[0];
      TrimStartRun(w, b);
    } else {
      assert (a + w + b)[0] == a[0];
      assert (a + w + b)[1..] == a[1..] + w + b;
      ReplaceWhitespaceRunsDecompoe(a[1..], w, b, sep);
      assert [a[0]] + (a[1..] + sep + ReplaceWhitespaceRuns(b, sep)) == a + sep + ReplaceWhitespaceRuns(b, sep);
    }
  }

  /** With a separator free of whitespace, no whitespace survives the replacement. */
  lemma {:induction false} ReplaceWhitespaceRunsSemEspaco(s: string, sep: string)
    requires forall i :: 0 <= i < |sep| ==> !IsWhitespace(sep[i])
    ensures forall i :: 0 <= i < |ReplaceWhitespaceRuns(s, sep)| ==> !IsWhitespace(ReplaceWhitespaceRuns(s, sep)[i])
    decreases |s|
  {
    if s == [] {
    } else if IsWhitespace(s[0]) {
      ReplaceWhitespaceRunsSemEspaco(TrimStart(s), sep);
      var rest := ReplaceWhitespaceRuns(TrimStart(s), sep);
      forall i | 0 <= i < |sep + rest| ensures !IsWhitespace((sep + rest)[i]) {
        if i >= |sep| {
          assert (sep + rest)[i] == rest[i - |sep|];
        }
      }
    } else {
      ReplaceWhitespaceRunsSemEspaco(s[1..], sep);
      var rest := ReplaceWhitespaceRuns(s[1..], sep);
      forall i | 0 <= i < |[s[0]] + rest| ensures !IsWhitespace(([s[0]] + rest)[i]) {
        if i >= 1 {
          assert ([s[0]] + rest)[i] == rest[i - 1];
        }
      }
    }
  }

  /** `s.replace(from, to)` with a one-character string pattern: only the first occurrence. */
  function ReplaceFirst(s: string, from: char, to: char): (r: string)
    ensures |r| == |s|
  {
    if s == [] then []
    else if s[0] == from then [to] + s[1..]
    else [s[0]] + ReplaceFirst(s[1..], from, to)
  }

  /** Only the first occurrence is replaced: the text before it and after it is kept. */
  lemma {:induction false} ReplaceFirstAt(s: string, from: char, to: char, k: int)
    requires 0 <= k < |s| && s[k] == from
    requires forall i :: 0 <= i < k ==> s[i] != from
    ensures ReplaceFirst(s, from, to) == s[..k] + [to] + s[k + 1..]
  {
    if k > 0 {
      ReplaceFirstAt(s[1..], from, to, k - 1);
      assert s[1..][..k - 1] == s[1..k];
      assert s[1..][k..] == s[k + 1..];
      assert [s[0]] + s[1..k] == s[..k];
    }
  }

  /** Without an occurrence, nothing changes. */
  lemma {:induction false} ReplaceFirstAbsent(s: string, from: char, to: char)
    requires forall i :: 0 <= i < |s| ==> s[i] != from
    ensures ReplaceFirst(s, from, to) == s
  {
    if s != [] {
      ReplaceFirstAbsent(s[1..], from, to);
    }
  }

  /** `s.split(sep)` with a one-character separator: always at least one piece. */
  function Split(s: string, sep: char): (r: seq<string>)
    ensures |r| >= 1
  {
    if s == [] then [""]
    else
      var rest := Split(s[1..], sep);
      if s[0] == sep then [""] + rest
      else [[s[0]] + rest[0]] + rest[1..]
  }

  /** A text without the separator is a single piece. */
  lemma {:induction false} SplitSemSeparador(s: string, sep: char)
    requires forall i :: 0 <= i < |s| ==> s[i] != sep
    ensures Split(s, sep) == [s]
  {
    if s != [] {
      SplitSemSeparador(s[1..], sep);
      assert [s[0]] + s[1..] == s;
    }
  }
}

/** Order-preserving filtering, as `Array.prototype.filter` does it. */
module Lists {
  import opened Wrappers

  function Filter<T>(s: seq<T>, keep: T -> bool): (r: seq<T>)
    ensures |r| <= |s|
    ensures forall x :: x in r ==> x in s && keep(x)
  {
    if s == [] then [] else (if keep(s[0]) then [s[0]] else []) + Filter(s[1..], keep)
  }

  /** Everything that passes is kept. */
  lemma {:induction false} FilterKeepsPassing<T>(s: seq<T>, keep: T -> bool, x: T)
    requires x in s && keep(x)
    ensures x in Filter(s, keep)
  {
    if s[0] != x {
      FilterKeepsPassing(s[1..], keep, x);
    }
  }

  /** Filtering distributes over concatenation, so the kept elements stay in their original order. */
  lemma {:induction false} FilterConcat<T>(a: seq<T>, b: seq<T>, keep: T -> bool)
    ensures Filter(a + b, keep) == Filter(a, keep) + Filter(b, keep)
  {
    if a == [] {
      assert a + b == b;
    } else {
      assert (a + b)[1..] == a[1..] + b;
      FilterConcat(a[1..], b, keep);
    }
  }

  /** A one-element list keeps its element exactly when it passes. */
  lemma FilterSingleton<T>(x: T, keep: T -> bool)
    ensures Filter([x], keep) == if keep(x) then [x] else []
  {
    assert [x][1..] == [];
  }

  /** When every element passes, the filter returns the whole sequence. */
  lemma {:induction false} FilterAllPass<T>(s: seq<T>, keep: T -> bool)
    requires forall i :: 0 <= i < |s| ==> keep(s[i])
    ensures Filter(s, keep) == s
  {
    if s != [] {
      FilterAllPass(s[1..], keep);
    }
  }

  /** `Array.prototype.find`: the first element that passes, if any. */
  function Find<T(==)>(s: seq<T>, p: T -> bool): (r: Option<T>)
    ensures r.None? <==> forall i :: 0 <= i < |s| ==> !p(s[i])
    ensures r.Some? ==> exists k :: (0 <= k < |s| && s[k] == r.value && p(s[k])
      && forall i :: 0 <= i < k ==> !p(s[i]))
  {
    if s == [] then None
    else if p(s[0]) then Some(s[0])
    else
      var r := Find(s[1..], p);
      if r.Some? then
        var k :| 0 <= k < |s[1..]| && s[1..][k] == r.value && p(s[1..][k])
          && forall i :: 0 <= i < k ==> !p(s[1..][i]);
        assert forall i :: 1 <= i < k + 1 ==> s[i] == s[1..][i - 1];
        r
      else
        assert forall i :: 1 <= i < |s| ==> s[i] == s[1..][i - 1];
        r
  }
}
