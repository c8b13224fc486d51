/** `toCamelCase` and `toSnakeCase`, the key converters of the cookie module. */
module CookieHelper {
  import opened Strings

  /** `word.charAt(0).toUpperCase() + word.slice(1)`; the empty word stays empty. */
  function Capitalize(word: string): string
  {
    if word == [] then [] else [ToUpperChar(word[0])] + word[1..]
  }

  /** Every word after the first capitalized. */
  function Capitalized(words: seq<string>): (r: seq<string>)
    ensures |r| == |words|
    ensures forall i :: 0 <= i < |words| ==> r[i] == Capitalize(words[i])
  {
    seq(|words|, i requires 0 <= i < |words| => Capitalize(words[i]))
  }

  /** `toCamelCase(s)`: split on `_`, keep the first word, capitalize the rest, glue together. */
  function ToCamelCase(s: string): (r: string)
    ensures '_' !in r
    ensures '_' !in s ==> r == s
  {
    var words := Split(s, "_");
    var camel := [words[0]] + Capitalized(words[1..]);
    assert forall w :: w in camel ==> '_' !in w by {
      SplitPiecesAvoidSeparator(s, '_');
      CamelPiecesAvoid(words);
    }
    JoinAvoids(camel, "", '_');
    assert '_' !in s ==> words == [s] by {
      if '_' !in s {
        SplitWithoutSeparator(s, '_');
      }
    }
    Join(camel, "")
  }

  /** Capitalizing words without `_` introduces none. */
  lemma CamelPiecesAvoid(words: seq<string>)
    requires |words| >= 1 && forall w :: w in words ==> '_' !in w
    ensures forall w :: w in [words[0]] + Capitalized(words[1..]) ==> '_' !in w
  {
    var caps := Capitalized(words[1..]);
    forall i | 0 <= i < |caps| ensures '_' !in caps[i] {
      assert words[i + 1] in words;
    }
    assert words[0] in words;
  }

  lemma JoinCons(x: string, rest: seq<string>, sep: string)
    requires |rest| >= 1
    ensures Join([x] + rest, sep) == x + (sep + Join(rest, sep))
  {
    assert ([x] + rest)[1..] == rest;
    AppendAssociates(x, sep, Join(rest, sep));
  }

  lemma JoinConsGlued(x: string, rest: seq<string>)
    requires |rest| >= 1
    ensures Join([x] + rest, "") == x + Join(rest, "")
  {
    JoinCons(x, rest, "");
    assert "" + Join(rest, "") == Join(rest, "");
  }

  lemma {:induction false} JoinAvoids(words: seq<string>, sep: string, c: char)
    requires c !in sep
    requires forall w :: w in words ==> c !in w
    ensures c !in Join(words, sep)
    decreases |words|
  {
    if |words| > 1 {
      assert words[0] in words;
      assert forall w :: w in words[1..] ==> w in words;
      JoinAvoids(words[1..], sep, c);
    }
  }

  /** `text.replace(/([A-Z])/g, ' $1')`: a space before every upper-case letter. */
  function SpaceBeforeUpper(s: string): string
  {
    if s == [] then []
    else (if IsUpper(s[0]) then [' ', s[0]] else [s[0]]) + SpaceBeforeUpper(s[1..])
  }

  /** `toSnakeCase(s)`: space before capitals, spaces to `_`, then lower case. */
  function ToSnakeCase(s: string): (r: string)
    ensures forall i :: 0 <= i < |r| ==> !IsUpper(r[i])
  {
    ToLower(Join(Split(SpaceBeforeUpper(s), " "), "_"))
  }

  /** What one input character becomes in the snake-case output. */
  function SnakeOf(c: char): string
  {
    if IsUpper(c) then ['_', ToLowerChar(c)] else if c == ' ' then "_" else [c]
  }

  /** The character-by-character reading of `toSnakeCase`. */
  function SnakeChars(s: string): string
  {
    if s == [] then [] else SnakeOf(s[0]) + SnakeChars(s[1..])
  }

  /**
   * `toSnakeCase` turns every upper-case letter into `_` and its lower-case
   * form, every space into `_`, and keeps every other character.
   */
  lemma {:induction false} ToSnakeCaseCharwise(s: string)
    ensures ToSnakeCase(s) == SnakeChars(s)
  {
    SplitJoinReplaces(SpaceBeforeUpper(s), ' ', '_');
    LowerReplaceSpaced(s);
  }

  lemma {:induction false} LowerReplaceSpaced(s: string)
    ensures ToLower(ReplaceChar(SpaceBeforeUpper(s), ' ', '_')) == SnakeChars(s)
    decreases |s|
  {
    if s != [] {
      var head := if IsUpper(s[0]) then [' ', s[0]] else [s[0]];
      assert SpaceBeforeUpper(s) == head + SpaceBeforeUpper(s[1..]);
      LowerReplaceSpaced(s[1..]);
      LowerReplaceAppend(head, SpaceBeforeUpper(s[1..]));
      LowerReplaceHead(s[0]);
    }
  }

  lemma LowerReplaceHead(c: char)
    ensures ToLower(ReplaceChar(if IsUpper(c) then [' ', c] else [c], ' ', '_')) == SnakeOf(c)
  {
  }

  lemma LowerReplaceAppend(a: string, b: string)
    ensures ToLower(ReplaceChar(a + b, ' ', '_'))
         == ToLower(ReplaceChar(a, ' ', '_')) + ToLower(ReplaceChar(b, ' ', '_'))
  {
  }

  lemma {:induction false} SnakeCharsAppend(a: string, b: string)
    ensures SnakeChars(a + b) == SnakeChars(a) + SnakeChars(b)
    decreases |a|
  {
    if a != [] {
      assert (a + b)[0] == a[0];
      assert (a + b)[1..] == a[1..] + b;
      SnakeCharsAppend(a[1..], b);
      calc {
        SnakeChars(a + b);
        SnakeOf(a[0]) + SnakeChars(a[1..] + b);
        SnakeOf(a[0]) + (SnakeChars(a[1..]) + SnakeChars(b));
        (SnakeOf(a[0]) + SnakeChars(a[1..])) + SnakeChars(b);
      }
    } else {
      assert a + b == b;
    }
  }

  /** A character `toSnakeCase` leaves as it is. */
  predicate Plain(c: char)
  {
    !IsUpper(c) && c != ' ' && c != '_'
  }

  /**
   * A word of a snake-case name: non-empty, starting with a lower-case
   * letter, without upper-case letters, spaces or underscores (digits are fine).
   */
  predicate SnakeWord(w: string)
  {
    w != [] && IsLower(w[0]) && forall i :: 0 <= i < |w| ==> Plain(w[i])
  }

  lemma {:induction false} SnakeOfLower(w: string)
    requires forall i :: 0 <= i < |w| ==> Plain(w[i])
    ensures SnakeChars(w) == w
    decreases |w|
  {
    if w != [] {
      SnakeOfLower(w[1..]);
    }
  }

  lemma SnakeOfCapitalized(w: string)
    requires SnakeWord(w)
    ensures SnakeChars(Capitalize(w)) == "_" + w
  {
    var c := Capitalize(w);
    assert c[1..] == w[1..];
    SnakeOfLower(w[1..]);
    assert [w[0]] + w[1..] == w;
  }

  lemma {:induction false} SnakeOfCapitalizedWords(ws: seq<string>)
    requires |ws| >= 1
    requires forall i :: 0 <= i < |ws| ==> SnakeWord(ws[i])
    ensures SnakeChars(Join(Capitalized(ws), "")) == "_" + Join(ws, "_")
    decreases |ws|
  {
    var first := Capitalize(ws[0]);
    SnakeOfCapitalized(ws[0]);
    if |ws| == 1 {
      assert Capitalized(ws) == [first];
    } else {
      var tail := Capitalized(ws[1..]);
      var rest := Join(tail, "");
      var joined := Join(ws[1..], "_");
      assert Capitalized(ws) == [first] + tail;
      SnakeOfCapitalizedWords(ws[1..]);
      JoinConsGlued(first, tail);
      SnakeCharsAppend(first, rest);
      // SnakeChars(Join(Capitalized(ws), "")) == ("_" + ws[0]) + ("_" + joined)
      assert [ws[0]] + ws[1..] == ws;
      JoinCons(ws[0], ws[1..], "_");
      AppendAssociates("_", ws[0], "_" + joined);
    }
  }

  /** The snake-case reading of the camel-cased words is the underscore-joined words. */
  lemma {:induction false} SnakeOfCamelWords(ws: seq<string>)
    requires |ws| >= 1
    requires forall i :: 0 <= i < |ws| ==> SnakeWord(ws[i])
    ensures SnakeChars(Join([ws[0]] + Capitalized(ws[1..]), "")) == Join(ws, "_")
  {
    assert SnakeWord(ws[0]);
    SnakeOfLower(ws[0]);
    if |ws| > 1 {
      var tail := Capitalized(ws[1..]);
      var rest := Join(tail, "");
      SnakeOfCapitalizedWords(ws[1..]);
      JoinConsGlued(ws[0], tail);
      SnakeCharsAppend(ws[0], rest);
      assert [ws[0]] + ws[1..] == ws;
      JoinCons(ws[0], ws[1..], "_");
    } else {
      assert [ws[0]] + Capitalized(ws[1..]) == [ws[0]];
    }
  }

  /**
   * For lower-case words joined by single underscores, `toSnakeCase`
   * undoes `toCamelCase`.
   */
  lemma {:induction false} SnakeUndoesCamel(ws: seq<string>)
    requires |ws| >= 1
    requires forall i :: 0 <= i < |ws| ==> SnakeWord(ws[i])
    ensures ToSnakeCase(ToCamelCase(Join(ws, "_"))) == Join(ws, "_")
  {
    SnakeWordsAvoidUnderscore(ws);
    CamelOfWords(ws, Join(ws, "_"));
    ToSnakeCaseCharwise(Join([ws[0]] + Capitalized(ws[1..]), ""));
    SnakeOfCamelWords(ws);
  }

  /** The examples for the two conversions. */
  lemma ConversionExamples()
    ensures ToCamelCase("test_error") == "testError"
    ensures ToSnakeCase("testError") == "test_error"
  {
    var ws := ["test", "error"];
    assert ws[1..] == ["error"];
    assert Join(ws, "_") == "test" + "_" + "error" == "test_error";
    assert SnakeWord("test") && SnakeWord("error");
    CamelOfWords(ws, "test_error");
    CamelWordsExample();
    SnakeUndoesCamel(ws);
  }

  lemma CamelWordsExample()
    ensures Join(["test"] + Capitalized(["error"]), "") == "testError"
  {
    var caps := Capitalized(["error"]);
    assert caps == [Capitalize("error")];
    assert Capitalize("error") == "Error";
    var camel := ["test"] + caps;
    assert camel[0] == "test" && camel[1..] == caps && |camel| == 2;
    assert Join(caps, "") == "Error";
  }

  lemma SnakeWordsAvoidUnderscore(ws: seq<string>)
    requires forall i :: 0 <= i < |ws| ==> SnakeWord(ws[i])
    ensures forall w :: w in ws ==> '_' !in w
  {
    forall w | w in ws ensures '_' !in w {
      var k :| 0 <= k < |ws| && ws[k] == w;
      assert SnakeWord(ws[k]);
    }
  }

  lemma CamelOfWords(ws: seq<string>, s: string)
    requires |ws| >= 1 && forall w :: w in ws ==> '_' !in w
    requires s == Join(ws, "_")
    ensures ToCamelCase(s) == Join([ws[0]] + Capitalized(ws[1..]), "")
  {
    SplitJoin(ws, '_');
  }
}
