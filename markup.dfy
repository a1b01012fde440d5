/** The bypass crawler's `re.sub(r"<.*?>", "", solution)`, written out by hand.
    Scanning left to right, a `<` opens a tag that ends at the first `>` after it,
    provided no newline comes first (`.` does not match a newline); the whole tag
    is dropped and the scan resumes after the `>`. Any other character, including
    a `<` that never closes on its own line, is kept. */
module Markup {
  import opened Records

  /** The position in `s` of the first `>` that no newline precedes, if any: the end
      of a tag whose `<` sits just before `s`. */
  function CloseAt(s: string): (k: Option<nat>)
    ensures k.Some? ==> k.value < |s| && s[k.value] == '>'
    ensures k.Some? ==> forall j :: 0 <= j < k.value ==> s[j] != '>' && s[j] != '\n'
    ensures k.None? ==> forall j :: 0 <= j < |s| && s[j] == '>' ==> '\n' in s[..j]
  {
    if s == [] || s[0] == '\n' then None
    else if s[0] == '>' then Some(0)
    else
      match CloseAt(s[1..])
      case None => None
      case Some(k) => Some(k + 1)
  }

  /** The text with every tag removed; it is never longer than the input. */
  function StripTags(s: string): (r: string)
    ensures |r| <= |s|
    decreases |s|
  {
    if s == [] then []
    else if s[0] == '<' && CloseAt(s[1..]).Some? then StripTags(s[CloseAt(s[1..]).value + 2..])
    else [s[0]] + StripTags(s[1..])
  }

  /** `re.search(r"<.*?>", s) is None`: no `<` in `s` closes on its own line. */
  predicate NoTags(s: string) {
    forall i :: 0 <= i < |s| && s[i] == '<' ==> CloseAt(s[i + 1..]).None?
  }

  /** A tag that closes holds no newline. */
  lemma TagHasNoNewline(s: string)
    requires s != [] && s[0] == '<' && CloseAt(s[1..]).Some?
    ensures '\n' !in s[..CloseAt(s[1..]).value + 2]
  {
    var k := CloseAt(s[1..]).value;
    forall j | 0 <= j < k + 2 ensures s[j] != '\n' {
      if 0 < j <= k { assert s[j] == s[1..][j - 1]; }
    }
  }

  /** A tag never spans a newline, so stripping keeps every newline. */
  lemma {:induction false} StripKeepsNewlines(s: string)
    ensures multiset(StripTags(s))['\n'] == multiset(s)['\n']
    decreases |s|
  {
    if s == [] {
    } else if s[0] == '<' && CloseAt(s[1..]).Some? {
      var k := CloseAt(s[1..]).value;
      var tag, rest := s[..k + 2], s[k + 2..];
      StripKeepsNewlines(rest);
      TagHasNoNewline(s);
      assert s == tag + rest;
      assert multiset(s) == multiset(tag) + multiset(rest);
      assert multiset(tag)['\n'] == 0;
    } else {
      StripKeepsNewlines(s[1..]);
      assert s == [s[0]] + s[1..];
    }
  }

  /** Text before the first `<` is kept as it is. */
  lemma {:induction false} StripPlainPrefix(a: string, b: string)
    requires '<' !in a
    ensures StripTags(a + b) == a + StripTags(b)
    decreases |a|
  {
    if a != [] {
      assert a[0] in a && a[0] != '<';
      assert a == [a[0]] + a[1..];
      assert (a + b)[0] == a[0];
      assert (a + b)[1..] == a[1..] + b;
      assert StripTags(a + b) == [a[0]] + StripTags(a[1..] + b);
      StripPlainPrefix(a[1..], b);
    } else {
      assert a + b == b;
    }
  }

  /** Plain text with no `>` or newline in front of `rest` only moves where the tag closes. */
  lemma {:induction false} CloseAtAfterPlain(t: string, rest: string)
    requires '>' !in t && '\n' !in t
    ensures CloseAt(rest).None? ==> CloseAt(t + rest).None?
    ensures CloseAt(rest).Some? ==> CloseAt(t + rest) == Some(CloseAt(rest).value + |t|)
    decreases |t|
  {
    if t != [] {
      var s, tail := t + rest, t[1..] + rest;
      assert s[0] == t[0] && s[1..] == tail;
      assert t[0] in t;
      assert '>' !in t[1..] && '\n' !in t[1..];
      CloseAtAfterPlain(t[1..], rest);
    } else {
      assert t + rest == rest;
    }
  }

  /** A tag `<t>` with no `>` or newline inside is dropped whole. */
  lemma StripDropsTag(t: string, b: string)
    requires '>' !in t && '\n' !in t
    ensures StripTags("<" + t + ">" + b) == StripTags(b)
  {
    var s := "<" + t + ">" + b;
    assert s[1..] == t + (">" + b);
    CloseAtAfterPlain(t, ">" + b);
    assert s[|t| + 2..] == b;
  }

  /** A `<` that does not close on its own line is kept, and the scan goes on right
      after it. */
  lemma StripKeepsOpenBracket(s: string)
    requires CloseAt(s).None?
    ensures StripTags("<" + s) == "<" + StripTags(s)
  {
    assert ("<" + s)[1..] == s;
  }

  /** A `<` that closes on its own line starts a tag that is dropped whole, and the
      scan goes on after its `>`. */
  lemma StripDropsFirstTag(s: string)
    requires CloseAt(s).Some?
    ensures StripTags("<" + s) == StripTags(s[CloseAt(s).value + 1..])
  {
    var t := "<" + s;
    assert t[1..] == s;
    assert t[CloseAt(s).value + 2..] == s[CloseAt(s).value + 1..];
  }

  /** With the rules above, stripping is determined on every string: text up
      to the first `<` is kept, a `<` that closes on its line starts a tag that is
      dropped whole, and one that does not is kept. */
  lemma StripCases(a: string, b: string)
    requires '<' !in a
    ensures CloseAt(b).None? ==> StripTags(a + ("<" + b)) == a + ("<" + StripTags(b))
    ensures CloseAt(b).Some? ==> StripTags(a + ("<" + b)) == a + StripTags(b[CloseAt(b).value + 1..])
  {
    StripPlainPrefix(a, "<" + b);
    if CloseAt(b).None? {
      StripKeepsOpenBracket(b);
    } else {
      StripDropsFirstTag(b);
    }
  }

  /** Text with no closing `>` before its first newline is stripped into text with none either. */
  lemma {:induction false} StripKeepsUnclosed(s: string)
    requires CloseAt(s).None?
    ensures CloseAt(StripTags(s)).None?
    decreases |s|
  {
    if s != [] && s[0] != '\n' {
      assert s[0] != '<' || CloseAt(s[1..]).None?;
      StripKeepsUnclosed(s[1..]);
    }
  }

  /** Nothing left in the result would match `<.*?>` again. */
  lemma {:induction false} StripLeavesNoTags(s: string)
    ensures NoTags(StripTags(s))
    decreases |s|
  {
    if s == [] {
    } else if s[0] == '<' && CloseAt(s[1..]).Some? {
      StripLeavesNoTags(s[CloseAt(s[1..]).value + 2..]);
    } else {
      var rest := StripTags(s[1..]);
      StripLeavesNoTags(s[1..]);
      if s[0] == '<' {
        StripKeepsUnclosed(s[1..]);
      }
      var r := [s[0]] + rest;
      forall i | 0 <= i < |r| && r[i] == '<' ensures CloseAt(r[i + 1..]).None? {
        if i > 0 {
          assert r[i + 1..] == rest[i..];
          assert rest[i - 1] == '<';
        } else {
          assert r[1..] == rest;
        }
      }
    }
  }

  /** Text without tags is returned unchanged. */
  lemma {:induction false} StripNoTagsUnchanged(s: string)
    requires NoTags(s)
    ensures StripTags(s) == s
    decreases |s|
  {
    if s != [] {
      assert s[0] == '<' ==> CloseAt(s[1..]).None?;
      assert NoTags(s[1..]) by {
        forall i | 0 <= i < |s[1..]| && s[1..][i] == '<' ensures CloseAt(s[1..][i + 1..]).None? {
          assert s[1..][i + 1..] == s[i + 2..];
        }
      }
      StripNoTagsUnchanged(s[1..]);
    }
  }

  lemma {:induction false} StripShortensTagged(s: string)
    ensures |StripTags(s)| <= |s|
    ensures !NoTags(s) ==> |StripTags(s)| < |s|
    decreases |s|
  {
    if s == [] {
    } else if s[0] == '<' && CloseAt(s[1..]).Some? {
      StripShortensTagged(s[CloseAt(s[1..]).value + 2..]);
    } else {
      StripShortensTagged(s[1..]);
      if !NoTags(s) {
        var i :| 0 <= i < |s| && s[i] == '<' && CloseAt(s[i + 1..]).Some?;
        assert i > 0;
        assert s[1..][i - 1] == '<' && s[1..][i..] == s[i + 1..];
      }
    }
  }

  /** The strings stripping leaves alone are exactly those without tags. */
  lemma StripFixedPoints(s: string)
    ensures StripTags(s) == s <==> NoTags(s)
  {
    StripShortensTagged(s);
    if NoTags(s) {
      StripNoTagsUnchanged(s);
    }
  }

  /** Stripping twice is stripping once. */
  lemma StripIdempotent(s: string)
    ensures StripTags(StripTags(s)) == StripTags(s)
  {
    StripLeavesNoTags(s);
    StripNoTagsUnchanged(StripTags(s));
  }

  /** A proxy solution that wraps markup-free JSON in a `<pre>` element comes out
      as the bare JSON. */
  lemma StripUnwrapsPre(json: string)
    requires '<' !in json
    ensures StripTags("<pre>" + json + "</pre>") == json
  {
    var tail := "</pre>";
    assert "<pre>" + json + tail == "<" + "pre" + ">" + (json + tail);
    StripDropsTag("pre", json + tail);
    StripPlainPrefix(json, tail);
    assert tail == "<" + "/pre" + ">" + "";
    StripDropsTag("/pre", "");
    assert StripTags("") == "";
    assert json + "" == json;
  }
}
