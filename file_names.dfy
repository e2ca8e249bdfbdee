/** Recovery of a fragment's sequence index from its file name: the name is
    split on underscores, the last token is taken, and the first character
    of that token is read as a decimal digit. */
module FileNames {
  import opened Fragments

  /** The character the file name is split on. */
  const Separator: char := '_'

  /** Splitting on every separator, keeping empty tokens, as Python's
      `str.split` with an explicit separator does: there is always at
      least one token and no token contains the separator. */
  function Split(s: string): (tokens: seq<string>)
    ensures |tokens| >= 1
    ensures forall k :: 0 <= k < |tokens| ==> Separator !in tokens[k]
  {
    if s == [] then [[]]
    else
      var rest := Split(s[1..]);
      if s[0] == Separator then [[]] + rest
      else [[s[0]] + rest[0]] + rest[1..]
  }

  /** The inverse of Split: the tokens glued back with separators. */
  function Join(tokens: seq<string>): string
    requires |tokens| >= 1
  {
    if |tokens| == 1 then tokens[0]
    else tokens[0] + [Separator] + Join(tokens[1..])
  }

  /** Splitting loses nothing: joining the tokens gives the name back. */
  lemma {:induction false} JoinSplit(s: string)
    ensures Join(Split(s)) == s
  {
    if s != [] {
      var rest := Split(s[1..]);
      JoinSplit(s[1..]);
      if s[0] == Separator {
        assert Split(s) == [[]] + rest;
        assert Join(Split(s)) == [] + [Separator] + Join(rest);
      } else {
        var tokens := [[s[0]] + rest[0]] + rest[1..];
        assert Split(s) == tokens;
        if |rest| == 1 {
          assert Join(tokens) == [s[0]] + rest[0];
        } else {
          assert tokens[1..] == rest[1..];
          assert Join(tokens) == [s[0]] + rest[0] + [Separator] + Join(rest[1..]);
        }
      }
    }
  }

  /** A name without separators is a single token. */
  lemma {:induction false} SplitWithoutSeparator(t: string)
    requires Separator !in t
    ensures Split(t) == [t]
  {
    if t != [] {
      SplitWithoutSeparator(t[1..]);
      assert [t[0]] + t[1..] == t;
    }
  }

  /** A separator between two names splits them apart independently. */
  lemma {:induction false} SplitAtSeparator(a: string, b: string)
    ensures Split(a + [Separator] + b) == Split(a) + Split(b)
  {
    var s := a + [Separator] + b;
    if a == [] {
      assert s[0] == Separator && s[1..] == b;
    } else {
      assert s[0] == a[0] && s[1..] == a[1..] + [Separator] + b;
      SplitAtSeparator(a[1..], b);
      var ra := Split(a[1..]);
      assert Split(s[1..]) == ra + Split(b);
      if a[0] != Separator {
        assert (ra + Split(b))[0] == ra[0];
        assert (ra + Split(b))[1..] == ra[1..] + Split(b);
      }
    }
  }

  /** Joining separator-free tokens and splitting again gives the tokens. */
  lemma {:induction false} SplitJoin(tokens: seq<string>)
    requires |tokens| >= 1
    requires forall k :: 0 <= k < |tokens| ==> Separator !in tokens[k]
    ensures Split(Join(tokens)) == tokens
  {
    SplitWithoutSeparator(tokens[0]);
    if |tokens| > 1 {
      SplitJoin(tokens[1..]);
      SplitAtSeparator(tokens[0], Join(tokens[1..]));
      assert [tokens[0]] + tokens[1..] == tokens;
    }
  }

  /** The token after the last separator (the whole name if it has none);
      it never holds a separator. */
  function LastToken(s: string): (t: string)
    ensures Separator !in t
  {
    var tokens := Split(s);
    tokens[|tokens| - 1]
  }

  /** The last token of a join is its final suffix, preceded by a separator
      whenever there is more than one token. */
  lemma {:induction false} JoinEndsWithLast(tokens: seq<string>)
    requires |tokens| >= 1
    ensures var t, j := tokens[|tokens| - 1], Join(tokens);
            |t| <= |j| && j[|j| - |t|..] == t &&
            (|tokens| == 1 <==> |t| == |j|) &&
            (|tokens| > 1 ==> j[|j| - |t| - 1] == Separator)
  {
    if |tokens| > 1 {
      JoinEndsWithLast(tokens[1..]);
      var t, rest := tokens[|tokens| - 1], Join(tokens[1..]);
      assert tokens[1..][|tokens[1..]| - 1] == t;
      var j := tokens[0] + [Separator] + rest;
      assert Join(tokens) == j;
      assert j[|j| - |t|..] == rest[|rest| - |t|..];
      if |tokens[1..]| == 1 {
        assert j[|j| - |t| - 1] == Separator;
      } else {
        assert j[|j| - |t| - 1] == rest[|rest| - |t| - 1];
      }
    }
  }

  /** LastToken is the suffix of the name that follows its last separator:
      it ends the name and is either the whole name or directly preceded by
      a separator. */
  lemma {:induction false} LastTokenIsFinalSegment(s: string)
    ensures var t := LastToken(s);
            |t| <= |s| && s[|s| - |t|..] == t &&
            (|t| == |s| || s[|s| - |t| - 1] == Separator)
  {
    JoinSplit(s);
    JoinEndsWithLast(Split(s));
  }

  /** Whatever precedes the last separator does not affect the last token. */
  lemma {:induction false} LastTokenAfterSeparator(prefix: string, token: string)
    requires Separator !in token
    ensures LastToken(prefix + [Separator] + token) == token
  {
    SplitAtSeparator(prefix, token);
    SplitWithoutSeparator(token);
  }

  /** Why reading the index can fail: the last token is empty (the name ends
      in a separator), or its first character is not a decimal digit. */
  datatype IndexError = EmptyIndexToken | NonDigitIndex(found: char)

  predicate IsDigit(c: char) {
    '0' <= c <= '9'
  }

  /** The value of one decimal digit. */
  function DigitValue(c: char): (v: nat)
    requires IsDigit(c)
    ensures v <= 9
  {
    (c as int) - ('0' as int)
  }

  /** The sequence index of a fragment file: the integer value of the FIRST
      character of the last underscore-separated token, so a multi-digit
      index collapses to its leading digit and the result is at most 9. */
  function ParseIndex(file: string): (r: Result<nat, IndexError>)
    ensures r.Ok? <==> LastToken(file) != [] && IsDigit(LastToken(file)[0])
    ensures r.Ok? ==> r.value <= 9 && r.value == DigitValue(LastToken(file)[0])
    ensures LastToken(file) == [] <==> r == Err(EmptyIndexToken)
  {
    var token := LastToken(file);
    if token == [] then Err(EmptyIndexToken)
    else if IsDigit(token[0]) then Ok(DigitValue(token[0]))
    else Err(NonDigitIndex(token[0]))
  }

  /** The index is read from the first character after the last separator,
      whatever the prefix is and whatever follows that character. */
  lemma {:induction false} ParseIndexReadsLeadingDigit(prefix: string, d: char, rest: string)
    requires IsDigit(d) && Separator !in rest
    ensures ParseIndex(prefix + [Separator] + [d] + rest) == Ok(DigitValue(d))
  {
    assert prefix + [Separator] + [d] + rest == prefix + [Separator] + ([d] + rest);
    LastTokenAfterSeparator(prefix, [d] + rest);
  }

  /** A multi-digit index collapses to its first digit: "utt_12.mp3" reads
      as 1, and "utt_10.mp3" reads the same as "utt_1.mp3". */
  lemma {:induction false} MultiDigitIndexCollapses()
    ensures ParseIndex("utt_12.mp3") == Ok(1)
    ensures ParseIndex("utt_10.mp3") == ParseIndex("utt_1.mp3") == Ok(1)
  {
    ParseIndexReadsLeadingDigit("utt", '1', "2.mp3");
    assert "utt_12.mp3" == "utt" + [Separator] + ['1'] + "2.mp3";
    ParseIndexReadsLeadingDigit("utt", '1', "0.mp3");
    assert "utt_10.mp3" == "utt" + [Separator] + ['1'] + "0.mp3";
    ParseIndexReadsLeadingDigit("utt", '1', ".mp3");
    assert "utt_1.mp3" == "utt" + [Separator] + ['1'] + ".mp3";
  }

  /** A name ending in a separator has an empty last token and fails; a
      last token starting with a letter fails on that letter. */
  lemma {:induction false} MalformedNamesFail()
    ensures ParseIndex("utt_") == Err(EmptyIndexToken)
    ensures ParseIndex("utt_a.mp3") == Err(NonDigitIndex('a'))
  {
    LastTokenAfterSeparator("utt", "");
    assert "utt_" == "utt" + [Separator] + "";
    LastTokenAfterSeparator("utt", "a.mp3");
    assert "utt_a.mp3" == "utt" + [Separator] + "a.mp3";
  }
}
