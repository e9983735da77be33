/** The words of a chat command: `tokenize_string` and `str_tolower` of src/shared/util.cpp. */
module Commands {

  /** The words finished so far, and the one being read. */
  function Words(input: string, delimiter: char): (r: (seq<string>, string))
    ensures delimiter !in r.1 && forall i :: 0 <= i < |r.0| ==> r.0[i] != "" && delimiter !in r.0[i]
  {
    if input == "" then ([], "")
    else
      var (words, word) := Words(input[..|input| - 1], delimiter);
      var c := input[|input| - 1];
      if c != delimiter then (words, word + [c]) else if word != "" then (words + [word], "") else (words, word)
  }

  function Tokens(input: string, delimiter: char): seq<string> {
    var (words, word) := Words(input, delimiter);
    if word != "" then words + [word] else words
  }

  method Tokenize(input: string, delimiter: char) returns (tokens: seq<string>)
    ensures tokens == Tokens(input, delimiter)
  {
    tokens := [];
    var token := "";
    for i := 0 to |input|
      invariant (tokens, token) == Words(input[..i], delimiter)
    {
      assert input[..i + 1][..i] == input[..i];
      if input[i] == delimiter && token != "" {
        tokens, token := tokens + [token], "";
      } else if input[i] != delimiter {
        token := token + [input[i]];
      }
    }
    assert input[..|input|] == input;
    if token != "" {
      tokens := tokens + [token];
    }
  }

  /** Input that starts with anything else than the delimiter has a first word, which starts like the input. */
  lemma {:induction false} FirstWord(input: string, delimiter: char)
    requires input != "" && input[0] != delimiter
    ensures Tokens(input, delimiter) != [] && Tokens(input, delimiter)[0] != ""
    ensures Tokens(input, delimiter)[0][0] == input[0]
  {
    var last := |input| - 1;
    if last == 0 {
      assert Words(input[..0], delimiter) == ([], "");
      assert "" + [input[0]] == [input[0]];
    } else {
      assert input[..last][0] == input[0];
      FirstWord(input[..last], delimiter);
    }
  }

  // ---- What the words are: none in empty input, input without a delimiter, and input cut at a delimiter ----

  lemma {:induction false} OneToken(word: string, delimiter: char)
    requires delimiter !in word
    ensures Tokens(word, delimiter) == if word == "" then [] else [word]
  {
    NothingFinished(word, delimiter);
  }

  lemma {:induction false} NothingFinished(word: string, delimiter: char)
    requires delimiter !in word
    ensures Words(word, delimiter) == ([], word)
  {
    if word != "" {
      NothingFinished(word[..|word| - 1], delimiter);
      assert word[..|word| - 1] + [word[|word| - 1]] == word;
    }
  }

  lemma TokensJoin(a: string, b: string, delimiter: char)
    ensures Tokens(a + [delimiter] + b, delimiter) == Tokens(a, delimiter) + Tokens(b, delimiter)
  {
    WordsJoin(a, b, delimiter);
  }

  lemma {:induction false} WordsJoin(a: string, b: string, delimiter: char)
    ensures Words(a + [delimiter] + b, delimiter) == (Tokens(a, delimiter) + Words(b, delimiter).0, Words(b, delimiter).1)
  {
    var input := a + [delimiter] + b;
    if b == "" {
      assert input == a + [delimiter] && input[..|input| - 1] == a;
      assert Tokens(a, delimiter) + [] == Tokens(a, delimiter);
    } else {
      assert input[..|input| - 1] == a + [delimiter] + b[..|b| - 1];
      WordsJoin(a, b[..|b| - 1], delimiter);
      var (words, word) := Words(b[..|b| - 1], delimiter);
      assert input[|input| - 1] == b[|b| - 1];
      assert Tokens(a, delimiter) + words + [word] == Tokens(a, delimiter) + (words + [word]);
    }
  }

  ghost predicate Blank(s: string) {
    forall i :: 0 <= i < |s| ==> s[i] == ' '
  }

  lemma {:induction false} BlanksSkipped(gap: string, s: string)
    requires Blank(gap)
    ensures Tokens(gap + s, ' ') == Tokens(s, ' ')
  {
    if gap == "" {
      assert gap + s == s;
    } else {
      assert gap + s == "" + [' '] + (gap[1..] + s);
      TokensJoin("", gap[1..] + s, ' ');
      BlanksSkipped(gap[1..], s);
    }
  }

  /** Two words with blanks between them, and maybe after them. */
  lemma TwoWords(first: string, gap: string, second: string, rest: string)
    requires first != "" && second != "" && ' ' !in first && ' ' !in second
    requires Blank(gap) && Blank(rest) && gap != ""
    ensures Tokens(first + gap + second + rest, ' ') == [first, second]
  {
    hide Tokens, Words;
    var more := gap[1..] + (second + rest);
    CutInFour(first, gap, second, rest);
    TokensJoin(first, more, ' ');
    BlanksSkipped(gap[1..], second + rest);
    OneToken(first, ' ');
    LastWord(second, rest);
  }

  lemma CutInFour(first: string, gap: string, second: string, rest: string)
    requires Blank(gap) && gap != ""
    ensures first + gap + second + rest == first + [' '] + (gap[1..] + (second + rest))
  {
    assert gap == [' '] + gap[1..];
  }

  lemma LastWord(word: string, rest: string)
    requires word != "" && ' ' !in word && Blank(rest)
    ensures Tokens(word + rest, ' ') == [word]
  {
    hide Tokens, Words;
    OneToken(word, ' ');
    if rest == "" {
      assert word + rest == word;
    } else {
      assert word + rest == word + [' '] + rest[1..];
      TokensJoin(word, rest[1..], ' ');
      BlanksSkipped(rest[1..], "");
      OneToken("", ' ');
      assert rest[1..] + "" == rest[1..];
    }
  }

  function LowerChar(c: char): char {
    if 'A' <= c <= 'Z' then (c as int - 'A' as int + 'a' as int) as char else c
  }

  function Lower(s: string): string {
    seq(|s|, i requires 0 <= i < |s| => LowerChar(s[i]))
  }

  /** `s` spells `word`, with a capital for any small letter of it. */
  predicate Spells(s: string, word: string) {
    |s| == |word| &&
    forall i :: 0 <= i < |s| ==> s[i] == word[i] || ('a' <= word[i] <= 'z' && s[i] as int + 32 == word[i] as int)
  }

  lemma LowerSpells(s: string, word: string)
    requires forall i :: 0 <= i < |word| ==> !('A' <= word[i] <= 'Z')
    ensures Lower(s) == word <==> Spells(s, word)
  {
    if Lower(s) == word {
      forall i | 0 <= i < |s|
        ensures s[i] == word[i] || ('a' <= word[i] <= 'z' && s[i] as int + 32 == word[i] as int)
      {
        assert Lower(s)[i] == LowerChar(s[i]);
      }
    }
    if Spells(s, word) {
      forall i | 0 <= i < |s|
        ensures Lower(s)[i] == word[i]
      {
      }
    }
  }
}
