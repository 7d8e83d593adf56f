// How the support desk trims and checks the text a caller sends.
module Text {
  datatype Option<T> = None | Some(value: T)

  // What counts as white space, as the language's own `split` and `strip` have it.
  predicate IsSpace(c: char) {
    var code := c as int;
    || 0x09 <= code <= 0x0D || 0x1C <= code <= 0x20 || code == 0x85 || code == 0xA0 || code == 0x1680
    || 0x2000 <= code <= 0x200A || code == 0x2028 || code == 0x2029 || code == 0x202F || code == 0x205F ||
      code == 0x3000
  }

  const SPACES: set<int> :=
    {0x09, 0x0A, 0x0B, 0x0C, 0x0D, 0x1C, 0x1D, 0x1E, 0x1F, 0x20, 0x85, 0xA0, 0x1680, 0x2000, 0x2001, 0x2002, 0x2003,
     0x2004, 0x2005, 0x2006, 0x2007, 0x2008, 0x2009, 0x200A, 0x2028, 0x2029, 0x202F, 0x205F, 0x3000}

  lemma SpacesAre(c: char)
    ensures IsSpace(c) <==> c as int in SPACES
  {
  }

  // The number of leading characters that are not white space.
  function WordLength(s: string): (n: nat)
    ensures n <= |s|
    ensures forall k :: 0 <= k < n ==> !IsSpace(s[k])
    ensures n < |s| ==> IsSpace(s[n])
  {
    if s == "" || IsSpace(s[0]) then 0 else 1 + WordLength(s[1..])
  }

  // The text split at runs of white space, without empty words.
  function Words(s: string): (words: seq<string>)
    ensures forall k :: 0 <= k < |words| ==> IsWord(words[k])
    decreases |s|
  {
    if s == "" then []
    else if IsSpace(s[0]) then Words(s[1..])
    else
      var n := WordLength(s);
      [s[..n]] + Words(s[n..])
  }

  predicate IsWord(word: string) {
    word != "" && forall k :: 0 <= k < |word| ==> !IsSpace(word[k])
  }

  function Join(words: seq<string>): string {
    if words == [] then ""
    else if |words| == 1 then words[0]
    else words[0] + " " + Join(words[1..])
  }

  function Normalized(s: string): string {
    Join(Words(s))
  }

  predicate Blank(s: string) {
    forall k :: 0 <= k < |s| ==> IsSpace(s[k])
  }

  // Text that needs no trimming: single blanks, and those only between words.
  predicate IsNormal(s: string) {
    && (s != "" ==> !IsSpace(s[0]) && !IsSpace(s[|s| - 1]))
    && forall k :: 0 <= k < |s| && IsSpace(s[k]) ==> s[k] == ' ' && (k + 1 < |s| ==> !IsSpace(s[k + 1]))
  }

  lemma {:induction false} WordThenRest(word: string, rest: string)
    requires IsWord(word) && (rest == "" || IsSpace(rest[0]))
    ensures WordLength(word + rest) == |word|
    ensures Words(word + rest) == [word] + Words(rest)
    decreases |word|
  {
    var s := word + rest;
    if |word| == 1 {
      assert s[1..] == rest;
    } else {
      assert s[1..] == word[1..] + rest;
      WordThenRest(word[1..], rest);
    }
    assert s[..|word|] == word && s[|word|..] == rest;
  }

  // Splitting what was joined gives the words back.
  lemma {:induction false} WordsOfJoin(words: seq<string>)
    requires forall k :: 0 <= k < |words| ==> IsWord(words[k])
    ensures Words(Join(words)) == words
  {
    if |words| == 1 {
      WordThenRest(words[0], "");
      assert words[0] + "" == words[0];
    } else if |words| > 1 {
      WordsOfJoin(words[1..]);
      WordThenRest(words[0], " " + Join(words[1..]));
      assert words[0] + " " + Join(words[1..]) == words[0] + (" " + Join(words[1..]));
      assert (" " + Join(words[1..]))[1..] == Join(words[1..]);
    }
  }

  lemma NormalizingTwice(s: string)
    ensures Normalized(Normalized(s)) == Normalized(s)
  {
    WordsOfJoin(Words(s));
  }

  lemma {:induction false} NoLonger(s: string)
    ensures |Normalized(s)| <= |s|
    decreases |s|
  {
    if s != "" {
      if IsSpace(s[0]) {
        NoLonger(s[1..]);
      } else {
        var n := WordLength(s);
        NoLonger(s[n..]);
        if n < |s| {
          NoLonger(s[n + 1..]);
          assert s[n..][1..] == s[n + 1..];
        }
      }
    }
  }

  lemma {:induction false} BlankHasNoWords(s: string)
    ensures Blank(s) <==> Words(s) == []
  {
    if s != "" {
      if IsSpace(s[0]) {
        BlankHasNoWords(s[1..]);
        assert Blank(s) <==> Blank(s[1..]);
      }
    }
  }

  lemma {:induction false} JoinIsNormal(words: seq<string>)
    requires forall k :: 0 <= k < |words| ==> IsWord(words[k])
    ensures IsNormal(Join(words)) && (words != [] ==> Join(words) != "")
  {
    if |words| > 1 {
      JoinIsNormal(words[1..]);
      var head, tail := words[0] + " ", Join(words[1..]);
      assert Join(words) == head + tail;
      assert forall k :: 0 <= k < |Join(words)| ==> Join(words)[k] == if k < |head| then head[k] else tail[k - |head|];
    }
  }

  lemma NormalRest(s: string, n: nat)
    requires IsNormal(s) && n < |s| && IsSpace(s[n])
    ensures s[n] == ' ' && s[n + 1..] != "" && IsNormal(s[n + 1..])
  {
    hide IsSpace;
    var rest := s[n + 1..];
    assert rest != "" ==> rest[0] == s[n + 1];
    forall k | 0 <= k < |rest| && IsSpace(rest[k]) ensures rest[k] == ' ' &&
      (k + 1 < |rest| ==> !IsSpace(rest[k + 1])) {
      assert rest[k] == s[n + 1 + k];
      assert k + 1 < |rest| ==> rest[k + 1] == s[n + 1 + k + 1];
    }
  }

  lemma OneWord(s: string)
    requires s != "" && WordLength(s) == |s|
    ensures Words(s) == [s]
  {
    assert s[..|s|] == s && s[|s|..] == "" && Words("") == [];
  }

  lemma FirstWord(s: string, n: nat)
    requires n == WordLength(s) && 0 < n < |s|
    ensures Words(s) == [s[..n]] + Words(s[n + 1..])
    ensures Words([]) == [] && Join([]) == ""
  {
    assert s[n..][1..] == s[n + 1..];
    assert IsSpace(s[n..][0]);
    hide IsSpace, WordLength;
  }

  lemma {:induction false} NormalStays(s: string)
    requires IsNormal(s)
    ensures Normalized(s) == s
    decreases |s|
  {
    if s != "" {
      var n := WordLength(s);
      if n == |s| {
        OneWord(s);
        hide Words, IsNormal, WordLength;
      } else {
        var rest := s[n + 1..];
        NormalRest(s, n);
        FirstWord(s, n);
        hide IsNormal, IsSpace, WordLength, Words;
        NormalStays(rest);
        assert s == s[..n] + " " + rest;
      }
    }
  }

  // Normalizing leaves exactly the normal texts alone, and makes every text one of them.
  lemma NormalizedIsNormal(s: string)
    ensures IsNormal(Normalized(s))
    ensures Normalized(s) == s <==> IsNormal(s)
    ensures Normalized(s) == "" <==> Blank(s)
  {
    JoinIsNormal(Words(s));
    BlankHasNoWords(s);
    if IsNormal(s) {
      NormalStays(s);
    }
  }

  // --- The check every text goes through ---

  datatype Input = Text(text: string) | NotText

  datatype Checked = Ok(text: string) | Missing | TooLong

  function ValidatedText(input: Input, maximum: nat): Checked {
    if input.NotText? || Blank(input.text) then Missing
    else if |Normalized(input.text)| > maximum then TooLong
    else Ok(Normalized(input.text))
  }

  // A text that came out of the check: it goes through again unchanged.
  predicate Stored(text: string, maximum: nat) {
    text != "" && IsNormal(text) && |text| <= maximum
  }

  lemma ValidatedIsStored(input: Input, maximum: nat)
    ensures ValidatedText(input, maximum).Ok? ==>
      Stored(ValidatedText(input, maximum).text, maximum) &&
        Words(ValidatedText(input, maximum).text) == Words(input.text)
    ensures input.Text? && !Blank(input.text) && |input.text| <= maximum ==> ValidatedText(input, maximum).Ok?
  {
    if input.Text? {
      NormalizedIsNormal(input.text);
      WordsOfJoin(Words(input.text));
      NoLonger(input.text);
    }
  }

  // A text is stored exactly when checking it again accepts it as it stands.
  lemma StoredIsFixed(text: string, maximum: nat)
    ensures Stored(text, maximum) <==> ValidatedText(Text(text), maximum) == Ok(text)
  {
    NormalizedIsNormal(text);
  }
}
