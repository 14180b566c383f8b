/**
 The two string operations the request handler applies itself: trimming the
 `url` query value of surrounding white space (Go's `strings.TrimSpace`) and
 the scheme prefix test (Go's `strings.HasPrefix`). Strings are sequences of
 Unicode code points.
 */
module Text {

  /** Go's `unicode.IsSpace`: the Latin-1 spaces `\t \n \v \f \r`, space,
      U+0085 and U+00A0, and beyond Latin-1 the characters with the Unicode
      White_Space property. */
  predicate IsSpace(c: char) {
    var n := c as int;
    || (0x09 <= n <= 0x0D) || n == 0x20 || n == 0x85 || n == 0xA0
    || n == 0x1680 || (0x2000 <= n <= 0x200A)
    || n == 0x2028 || n == 0x2029 || n == 0x202F || n == 0x205F || n == 0x3000
  }

  /** Every character of `s` is white space (vacuously true of ""). */
  predicate AllSpace(s: string) {
    forall i :: 0 <= i < |s| ==> IsSpace(s[i])
  }

  /** Drops the leading white space of `s`. */
  function TrimLeft(s: string): (r: string)
    ensures |r| <= |s|
    decreases |s|
  {
    if |s| > 0 && IsSpace(s[0]) then TrimLeft(s[1..]) else s
  }

  /** Drops the trailing white space of `s`. */
  function TrimRight(s: string): (r: string)
    ensures |r| <= |s|
    decreases |s|
  {
    if |s| > 0 && IsSpace(s[|s| - 1]) then TrimRight(s[..|s| - 1]) else s
  }

  /** `TrimLeft(s)` is the suffix of `s` that is empty or starts with a
      non-space character, and what it drops is all white space. */
  lemma {:induction false} TrimLeftShape(s: string)
    ensures var r := TrimLeft(s);
            && r == s[|s| - |r|..]
            && (r == [] || !IsSpace(r[0]))
            && AllSpace(s[..|s| - |r|])
    decreases |s|
  {
    if |s| > 0 && IsSpace(s[0]) {
      var tail := s[1..];
      TrimLeftShape(tail);
      var k := |s| - |TrimLeft(s)|;
      assert TrimLeft(s) == TrimLeft(tail);
      assert AllSpace(tail[..k - 1]);
      forall i | 0 <= i < k ensures IsSpace(s[..k][i]) {
        if i == 0 {
          assert s[..k][0] == s[0];
        } else {
          assert s[..k][i] == tail[..k - 1][i - 1];
        }
      }
    }
  }

  /** `TrimRight(s)` is the prefix of `s` that is empty or ends with a
      non-space character, and what it drops is all white space. */
  lemma {:induction false} TrimRightShape(s: string)
    ensures var r := TrimRight(s);
            && r == s[..|r|]
            && (r == [] || !IsSpace(r[|r| - 1]))
            && AllSpace(s[|r|..])
    decreases |s|
  {
    if |s| > 0 && IsSpace(s[|s| - 1]) {
      var front := s[..|s| - 1];
      TrimRightShape(front);
      var k := |TrimRight(s)|;
      assert TrimRight(s) == front[..k];
      forall i | 0 <= i < |s| - k ensures IsSpace(s[k..][i]) {
        if k + i < |s| - 1 {
          assert s[k..][i] == front[k..][i];
        }
      }
    }
  }

  /** Go's `strings.TrimSpace`: a string that is empty or neither starts nor
      ends with white space. */
  function TrimSpace(s: string): (r: string)
    ensures |r| <= |s|
    ensures r != [] ==> !IsSpace(r[0]) && !IsSpace(r[|r| - 1])
  {
    var l := TrimLeft(s);
    TrimLeftShape(s);
    TrimRightShape(l);
    TrimRight(l)
  }

  /** The trimmed string is empty exactly when `s` is all white space. */
  lemma TrimSpaceEmptyIff(s: string)
    ensures TrimSpace(s) == [] <==> AllSpace(s)
  {
    var l := TrimLeft(s);
    TrimLeftShape(s);
    TrimRightShape(l);
    if TrimSpace(s) == [] {
      assert l[0..] == l;
      assert l == [];
      assert s[..|s|] == s;
    }
  }

  /** A string whose characters are all white space trims to "". */
  lemma {:induction false} TrimLeftOfSpace(s: string)
    requires AllSpace(s)
    ensures TrimLeft(s) == []
  {
    if |s| > 0 {
      assert AllSpace(s[1..]) by {
        forall i | 0 <= i < |s| - 1 ensures IsSpace(s[1..][i]) {
          assert s[1..][i] == s[i + 1];
        }
      }
      TrimLeftOfSpace(s[1..]);
    }
  }

  /** Leading white space in front of a string that starts with a non-space
      character (or is empty) is exactly what `TrimLeft` removes. */
  lemma {:induction false} TrimLeftOfPadded(pad: string, s: string)
    requires AllSpace(pad)
    requires s == [] || !IsSpace(s[0])
    ensures TrimLeft(pad + s) == s
    decreases |pad|
  {
    if |pad| == 0 {
      assert pad + s == s;
    } else {
      assert (pad + s)[1..] == pad[1..] + s;
      assert AllSpace(pad[1..]) by {
        forall i | 0 <= i < |pad| - 1 ensures IsSpace(pad[1..][i]) {
          assert pad[1..][i] == pad[i + 1];
        }
      }
      TrimLeftOfPadded(pad[1..], s);
    }
  }

  /** Trailing white space behind a string that ends with a non-space
      character (or is empty) is exactly what `TrimRight` removes. */
  lemma {:induction false} TrimRightOfPadded(s: string, pad: string)
    requires AllSpace(pad)
    requires s == [] || !IsSpace(s[|s| - 1])
    ensures TrimRight(s + pad) == s
    decreases |pad|
  {
    if |pad| == 0 {
      assert s + pad == s;
    } else {
      var n := |s + pad|;
      assert (s + pad)[..n - 1] == s + pad[..|pad| - 1];
      assert (s + pad)[n - 1] == pad[|pad| - 1];
      var front := pad[..|pad| - 1];
      assert AllSpace(front) by {
        forall i | 0 <= i < |front| ensures IsSpace(front[i]) {
          assert front[i] == pad[i];
        }
      }
      TrimRightOfPadded(s, front);
    }
  }

  /** `TrimSpace` undoes padding: surrounding a string that neither starts nor
      ends with white space by white space on both sides, then trimming,
      gives the string back. Together with `TrimSpaceSplits` this pins the
      result of `TrimSpace` down completely. */
  lemma TrimSpaceOfPadded(pre: string, core: string, post: string)
    requires AllSpace(pre) && AllSpace(post)
    requires core == [] || (!IsSpace(core[0]) && !IsSpace(core[|core| - 1]))
    ensures TrimSpace(pre + core + post) == core
  {
    assert pre + core + post == pre + (core + post);
    if core == [] {
      assert pre + core + post == pre + post;
      assert AllSpace(pre + post) by {
        forall i | 0 <= i < |pre + post| ensures IsSpace((pre + post)[i]) {
          if i < |pre| {
            assert (pre + post)[i] == pre[i];
          } else {
            assert (pre + post)[i] == post[i - |pre|];
          }
        }
      }
      TrimLeftOfSpace(pre + post);
    } else {
      assert (core + post)[0] == core[0];
      TrimLeftOfPadded(pre, core + post);
      TrimRightOfPadded(core, post);
    }
  }

  /** A string that neither starts nor ends with white space is left as it
      is. */
  lemma TrimSpaceKeeps(s: string)
    requires s != [] && !IsSpace(s[0]) && !IsSpace(s[|s| - 1])
    ensures TrimSpace(s) == s
  {
    assert [] + s + [] == s;
    TrimSpaceOfPadded([], s, []);
  }

  /** Every string is its trimmed string with white space on either side:
      `TrimSpace(s)` is the slice `s[i..j]`, and all of `s` before `i` and
      from `j` on is white space. */
  lemma TrimSpaceSplits(s: string) returns (i: nat, j: nat)
    ensures i <= j <= |s|
    ensures TrimSpace(s) == s[i..j]
    ensures AllSpace(s[..i]) && AllSpace(s[j..])
  {
    var l := TrimLeft(s);
    var r := TrimRight(l);
    i := |s| - |l|;
    j := i + |r|;
    TrimLeftShape(s);
    TrimRightShape(l);
    assert s[i..j] == l[..|r|];
    assert s[j..] == l[|r|..];
  }

  /** Extra white space on either side of any string trims away. */
  lemma TrimSpaceIgnoresPadding(pre: string, s: string, post: string)
    requires AllSpace(pre) && AllSpace(post)
    ensures TrimSpace(pre + s + post) == TrimSpace(s)
  {
    var i, j := TrimSpaceSplits(s);
    var core := s[i..j];
    var left := pre + s[..i];
    var right := s[j..] + post;
    assert s == s[..i] + core + s[j..];
    assert pre + s + post == left + core + right;
    assert AllSpace(left) by {
      forall k | 0 <= k < |left| ensures IsSpace(left[k]) {
        if k < |pre| {
          assert left[k] == pre[k];
        } else {
          assert left[k] == s[..i][k - |pre|];
        }
      }
    }
    assert AllSpace(right) by {
      forall k | 0 <= k < |right| ensures IsSpace(right[k]) {
        if k < |s[j..]| {
          assert right[k] == s[j..][k];
        } else {
          assert right[k] == post[k - |s[j..]|];
        }
      }
    }
    TrimSpaceOfPadded(left, core, right);
  }

  /** Trimming twice is trimming once. */
  lemma TrimSpaceIdempotent(s: string)
    ensures TrimSpace(TrimSpace(s)) == TrimSpace(s)
  {
    var r := TrimSpace(s);
    assert r == [] + r + [];
    TrimSpaceOfPadded([], r, []);
  }

  /** Go's `strings.HasPrefix`. */
  predicate HasPrefix(s: string, prefix: string) {
    |prefix| <= |s| && s[..|prefix|] == prefix
  }

  /** `HasPrefix(s, p)` holds exactly when `s` is `p` followed by something. */
  lemma HasPrefixIff(s: string, p: string)
    ensures HasPrefix(s, p) <==> exists t :: s == p + t
  {
    if HasPrefix(s, p) {
      assert s == p + s[|p|..];
    }
    if exists t :: s == p + t {
      var t :| s == p + t;
      assert s[..|p|] == p;
    }
  }
}
