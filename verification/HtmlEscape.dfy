/** The escaping of text that is put into the HTML of e-mails. */
module HtmlEscape {

  function ReplaceAll(s: string, c: char, word: string): string {
    if s == "" then "" else (if s[0] == c then word else [s[0]]) + ReplaceAll(s[1..], c, word)
  }

  // Four passes over the whole text, the ampersand first.
  function EscapeHtml(s: string): string {
    ReplaceAll(ReplaceAll(ReplaceAll(ReplaceAll(s, '&', "&amp;"), '<', "&lt;"), '>', "&gt;"), '"', "&quot;")
  }

  function Entity(c: char): string {
    match c
    case '&' => "&amp;"
    case '<' => "&lt;"
    case '>' => "&gt;"
    case '"' => "&quot;"
    case _ => [c]
  }

  // One pass, each character on its own.
  function EscapeOnce(s: string): string {
    if s == "" then "" else Entity(s[0]) + EscapeOnce(s[1..])
  }

  lemma {:induction false} ReplaceInConcat(a: string, b: string, c: char, word: string)
    ensures ReplaceAll(a + b, c, word) == ReplaceAll(a, c, word) + ReplaceAll(b, c, word)
  {
    if a == "" {
      assert a + b == b;
    } else {
      assert (a + b)[1..] == a[1..] + b;
      ReplaceInConcat(a[1..], b, c, word);
      var head := if a[0] == c then word else [a[0]];
      assert head + (ReplaceAll(a[1..], c, word) + ReplaceAll(b, c, word))
             == (head + ReplaceAll(a[1..], c, word)) + ReplaceAll(b, c, word);
    }
  }

  lemma {:induction false} ReplaceAbsent(s: string, c: char, word: string)
    requires c !in s
    ensures ReplaceAll(s, c, word) == s
  {
    if s == "" {
    } else {
      ReplaceAbsent(s[1..], c, word);
    }
  }

  lemma ReplaceOne(c: char, d: char, word: string)
    ensures ReplaceAll([c], d, word) == if c == d then word else [c]
  {
    assert ReplaceAll([c][1..], d, word) == "";
  }

  // Escaped pieces make up the escaped whole.
  lemma EscapeInConcat(a: string, b: string)
    ensures EscapeHtml(a + b) == EscapeHtml(a) + EscapeHtml(b)
  {
    ReplaceInConcat(a, b, '&', "&amp;");
    var a1, b1 := ReplaceAll(a, '&', "&amp;"), ReplaceAll(b, '&', "&amp;");
    ReplaceInConcat(a1, b1, '<', "&lt;");
    var a2, b2 := ReplaceAll(a1, '<', "&lt;"), ReplaceAll(b1, '<', "&lt;");
    ReplaceInConcat(a2, b2, '>', "&gt;");
    ReplaceInConcat(ReplaceAll(a2, '>', "&gt;"), ReplaceAll(b2, '>', "&gt;"), '"', "&quot;");
  }

  lemma PassOver(s: string, c: char, d: char, word: string)
    requires if c == d then s == [c] else d !in s
    ensures ReplaceAll(s, d, word) == if c == d then word else s
  {
    if c == d {
      ReplaceOne(c, d, word);
    } else {
      ReplaceAbsent(s, d, word);
    }
  }

  // No later pass touches what an earlier one put in.
  lemma EscapeOne(c: char)
    ensures EscapeHtml([c]) == Entity(c)
  {
    var s1 := if c == '&' then "&amp;" else [c];
    var s2 := if c == '<' then "&lt;" else s1;
    var s3 := if c == '>' then "&gt;" else s2;
    ReplaceOne(c, '&', "&amp;");
    assert ReplaceAll(s1, '<', "&lt;") == s2 by { PassOver(s1, c, '<', "&lt;"); }
    assert ReplaceAll(s2, '>', "&gt;") == s3 by { PassOver(s2, c, '>', "&gt;"); }
    assert ReplaceAll(s3, '"', "&quot;") == Entity(c) by { PassOver(s3, c, '"', "&quot;"); }
  }

  // The four passes are one pass.
  lemma {:induction false} PassesAreOnePass(s: string)
    ensures EscapeHtml(s) == EscapeOnce(s)
  {
    if s == "" {
    } else {
      PassesAreOnePass(s[1..]);
      EscapeOne(s[0]);
      EscapeInConcat([s[0]], s[1..]);
      assert s == [s[0]] + s[1..];
    }
  }

  lemma {:induction false} OnePassHasNoMarkup(s: string)
    ensures '<' !in EscapeOnce(s) && '>' !in EscapeOnce(s) && '"' !in EscapeOnce(s)
  {
    if s == "" {
    } else {
      OnePassHasNoMarkup(s[1..]);
    }
  }

  // Escaped text opens no tag and closes no attribute.
  lemma EscapedHasNoMarkup(s: string)
    ensures '<' !in EscapeHtml(s) && '>' !in EscapeHtml(s) && '"' !in EscapeHtml(s)
  {
    PassesAreOnePass(s);
    OnePassHasNoMarkup(s);
  }

  // What a reader of the e-mail sees.
  function Decode(s: string): string {
    if s == "" then
      ""
    else if "&amp;" <= s then
      "&" + Decode(s[5..])
    else if "&lt;" <= s then
      "<" + Decode(s[4..])
    else if "&gt;" <= s then
      ">" + Decode(s[4..])
    else if "&quot;" <= s then
      "\"" + Decode(s[6..])
    else
      [s[0]] + Decode(s[1..])
  }

  // Two words that differ at some position are no prefixes of the same text.
  lemma DiffersAt(word: string, other: string, rest: string, i: nat)
    requires i < |word| && i < |other| && word[i] != other[i]
    ensures !(other <= word + rest)
  {
    assert (word + rest)[i] == word[i];
  }

  lemma StartsWith(word: string, rest: string)
    ensures word <= word + rest && (word + rest)[|word|..] == rest
  {
  }

  lemma DecodeEntity(c: char, rest: string)
    ensures Decode(Entity(c) + rest) == [c] + Decode(rest)
  {
    var word := Entity(c);
    StartsWith(word, rest);
    if c == '<' {
      DiffersAt(word, "&amp;", rest, 1);
    } else if c == '>' {
      DiffersAt(word, "&amp;", rest, 1);
      DiffersAt(word, "&lt;", rest, 1);
    } else if c == '"' {
      DiffersAt(word, "&amp;", rest, 1);
      DiffersAt(word, "&lt;", rest, 1);
      DiffersAt(word, "&gt;", rest, 1);
    } else if c != '&' {
      DiffersAt(word, "&amp;", rest, 0);
      DiffersAt(word, "&lt;", rest, 0);
      DiffersAt(word, "&gt;", rest, 0);
      DiffersAt(word, "&quot;", rest, 0);
    }
  }

  lemma {:induction false} OnePassReadsBack(s: string)
    ensures Decode(EscapeOnce(s)) == s
  {
    if s == "" {
    } else {
      OnePassReadsBack(s[1..]);
      DecodeEntity(s[0], EscapeOnce(s[1..]));
    }
  }

  // The reader sees the text that was escaped, so different texts never look alike.
  lemma EscapedReadsBack(s: string)
    ensures Decode(EscapeHtml(s)) == s
  {
    PassesAreOnePass(s);
    OnePassReadsBack(s);
  }

  // With the ampersand last, the entities of the other passes would be escaped again.
  lemma AmpersandMustComeFirst(s: string)
    ensures ReplaceAll(ReplaceAll(s, '<', "&lt;"), '&', "&amp;") == ReplaceAll(ReplaceAll(s, '&', "&amp;"), '<', "&lt;")
            <==> '<' !in s
  {
    if '<' in s {
      LengthOfLast(s);
    } else {
      ReplaceAbsent(s, '<', "&lt;");
      NotIntroduced(s, '&', "&amp;", '<');
      ReplaceAbsent(ReplaceAll(s, '&', "&amp;"), '<', "&lt;");
    }
  }

  lemma {:induction false} NotIntroduced(s: string, c: char, word: string, d: char)
    requires d !in s && d !in word
    ensures d !in ReplaceAll(s, c, word)
  {
    if s == "" {
    } else {
      NotIntroduced(s[1..], c, word, d);
    }
  }

  lemma {:induction false} LengthOfLast(s: string)
    ensures |ReplaceAll(ReplaceAll(s, '<', "&lt;"), '&', "&amp;")|
            >= |ReplaceAll(ReplaceAll(s, '&', "&amp;"), '<', "&lt;")| + if '<' in s then 1 else 0
  {
    if s == "" {
    } else {
      var c, rest := s[0], s[1..];
      LengthOfLast(rest);
      ReplaceOne(c, '<', "&lt;");
      ReplaceOne(c, '&', "&amp;");
      ReplaceInConcat(if c == '<' then "&lt;" else [c], ReplaceAll(rest, '<', "&lt;"), '&', "&amp;");
      ReplaceInConcat(if c == '&' then "&amp;" else [c], ReplaceAll(rest, '&', "&amp;"), '<', "&lt;");
      EntitiesReplaced();
    }
  }

  lemma EntitiesReplaced()
    ensures |ReplaceAll("&lt;", '&', "&amp;")| == 8
    ensures ReplaceAll("&amp;", '<', "&lt;") == "&amp;"
  {
    ReplaceAbsent("lt;", '&', "&amp;");
    assert "&lt;"[1..] == "lt;";
    ReplaceAbsent("&amp;", '<', "&lt;");
  }
}
