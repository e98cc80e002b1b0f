/** White space as Rust's `char::is_whitespace`, `str::trim` and `str::split_whitespace` take it. */
module Text {
  /** The characters of Unicode's White_Space property. */
  predicate IsSpace(c: char) {
    var n := c as int;
    9 <= n <= 13 || n in {0x20, 0x85, 0xA0, 0x1680, 0x2028, 0x2029, 0x202F, 0x205F, 0x3000} || 0x2000 <= n <= 0x200A
  }

  function TrimStart(s: string): string {
    if s != [] && IsSpace(s[0]) then TrimStart(s[1..]) else s
  }

  function TrimEnd(s: string): (r: string)
    ensures r <= s
  {
    if s != [] && IsSpace(s[|s| - 1]) then TrimEnd(s[..|s| - 1]) else s
  }

  function Trim(s: string): string {
    TrimEnd(TrimStart(s))
  }

  /** The maximal pieces without white space. */
  function Words(s: string): (words: seq<string>)
    ensures s != [] && !IsSpace(s[|s| - 1]) ==> words != []
  {
    if s == [] then []
    else
      var front, c := s[..|s| - 1], s[|s| - 1];
      if IsSpace(c) then Words(front)
      else if front != [] && !IsSpace(front[|front| - 1]) then
        var words := Words(front);
        words[..|words| - 1] + [words[|words| - 1] + [c]]
      else Words(front) + [[c]]
  }

  function Join(words: seq<string>): string {
    if words == [] then ""
    else if |words| == 1 then words[0]
    else Join(words[..|words| - 1]) + " " + words[|words| - 1]
  }

  /** White space is single blanks, strictly inside. */
  predicate Clean(s: string) {
    Tidy(s) && (s != [] ==> !IsSpace(s[|s| - 1]))
  }

  /** White space is single blanks, none at the start. */
  predicate Tidy(s: string) {
    s != [] ==>
      var front, c := s[..|s| - 1], s[|s| - 1];
      Tidy(front) && (IsSpace(c) ==> c == ' ' && front != [] && !IsSpace(front[|front| - 1]))
  }

  lemma JoinLonger(words: seq<string>, c: char)
    requires words != []
    ensures Join(words[..|words| - 1] + [words[|words| - 1] + [c]]) == Join(words) + [c]
  {
    var front, last := words[..|words| - 1], words[|words| - 1];
    assert words == front + [last];
    JoinAnother(front, last);
    JoinAnother(front, last + [c]);
    AppendedTo(Join(front) + " ", last, [c]);
  }

  lemma AppendedTo(a: string, b: string, c: string)
    ensures a + (b + c) == a + b + c
  {
  }

  lemma JoinAnother(words: seq<string>, word: string)
    ensures Join(words + [word]) == if words == [] then word else Join(words) + " " + word
  {
    assert (words + [word])[..|words|] == words;
  }

  /** What one more character does to the collapsed text. */
  lemma CollapsedNext(s: string)
    requires s != []
    ensures var front, c := s[..|s| - 1], s[|s| - 1];
            Join(Words(s)) ==
            if IsSpace(c) then Join(Words(front))
            else if Words(front) == [] then [c]
            else if !IsSpace(front[|front| - 1]) then Join(Words(front)) + [c]
            else Join(Words(front)) + " " + [c]
  {
    var front, c := s[..|s| - 1], s[|s| - 1];
    if !IsSpace(c) {
      if front != [] && !IsSpace(front[|front| - 1]) {
        JoinLonger(Words(front), c);
      } else {
        JoinAnother(Words(front), [c]);
      }
    }
  }

  lemma TidyGrows(s: string, c: char)
    requires Clean(s)
    ensures !IsSpace(c) ==> Clean(s + [c])
    ensures !IsSpace(c) && s != [] ==> Clean(s + " " + [c])
  {
    assert (s + [c])[..|s|] == s;
    assert (s + " ")[..|s|] == s;
    assert (s + " " + [c])[..|s| + 1] == s + " ";
  }

  /** Collapsing white space gives single blanks inside, and nothing only for white space. */
  lemma {:induction false} CollapsedIsClean(s: string)
    ensures Clean(Join(Words(s))) && (Join(Words(s)) == "" <==> Words(s) == [])
  {
    if s != [] {
      var front, c := s[..|s| - 1], s[|s| - 1];
      CollapsedIsClean(front);
      CollapsedNext(s);
      TidyGrows(Join(Words(front)), c);
    }
  }

  /** Collapsing changes tidy text only by a blank at its end. */
  lemma {:induction false} CollapsingTidy(s: string)
    requires Tidy(s)
    ensures Join(Words(s)) == if s != [] && IsSpace(s[|s| - 1]) then s[..|s| - 1] else s
  {
    if s != [] {
      CollapsingTidy(s[..|s| - 1]);
      CollapsingNext(s);
    }
  }

  lemma CollapsingNext(s: string)
    requires Tidy(s) && s != []
    requires var front := s[..|s| - 1];
             Join(Words(front)) == if front != [] && IsSpace(front[|front| - 1]) then front[..|front| - 1] else front
    ensures Join(Words(s)) == if IsSpace(s[|s| - 1]) then s[..|s| - 1] else s
  {
    var front, c := s[..|s| - 1], s[|s| - 1];
    CollapsedIsClean(front);
    CollapsedNext(s);
    assert s == front + [c];
    if front != [] && IsSpace(front[|front| - 1]) {
      assert front == front[..|front| - 1] + " ";
    }
  }

  lemma {:induction false} PrefixOfTidy(s: string, n: nat)
    requires Tidy(s) && n <= |s|
    ensures Tidy(s[..n])
  {
    if n == |s| {
      assert s[..n] == s;
    } else {
      assert s[..|s| - 1][..n] == s[..n];
      PrefixOfTidy(s[..|s| - 1], n);
    }
  }

  lemma {:induction false} TidyStart(s: string)
    requires Tidy(s) && s != []
    ensures !IsSpace(s[0])
  {
    if |s| > 1 {
      TidyStart(s[..|s| - 1]);
    }
  }

  lemma {:induction false} TrimEndKeepsStart(s: string)
    requires s != [] && !IsSpace(s[0])
    ensures TrimEnd(s) != []
  {
    if |s| > 1 && IsSpace(s[|s| - 1]) {
      TrimEndKeepsStart(s[..|s| - 1]);
    }
  }

  /** Trimming tidy text makes it clean. */
  lemma TrimTidy(s: string)
    requires Tidy(s)
    ensures Clean(Trim(s))
    ensures Clean(s) ==> Trim(s) == s
    ensures s != [] ==> Trim(s) != []
  {
    if s != [] {
      TidyStart(s);
      TrimEndKeepsStart(s);
    }
  }

  predicate AllSpace(s: string) {
    forall c | c in s :: IsSpace(c)
  }

  /** The text `r` is what is left of `s` without the white space around it. */
  predicate IsTrimmed(s: string, r: string) {
    && (exists i, j | 0 <= i <= j <= |s| :: r == s[i..j] && AllSpace(s[..i]) && AllSpace(s[j..]))
    && (r != [] ==> !IsSpace(r[0]) && !IsSpace(r[|r| - 1]))
  }

  lemma {:induction false} TrimStartIs(s: string)
    ensures |TrimStart(s)| <= |s|
    ensures TrimStart(s) == s[|s| - |TrimStart(s)|..] && AllSpace(s[..|s| - |TrimStart(s)|])
    ensures TrimStart(s) != [] ==> !IsSpace(TrimStart(s)[0])
    decreases |s|
  {
    if s != [] && IsSpace(s[0]) {
      TrimStartIs(s[1..]);
      var i := |s| - 1 - |TrimStart(s[1..])|;
      assert s[1..][i..] == s[i + 1..] && s[..i + 1] == [s[0]] + s[1..][..i];
    }
  }

  lemma {:induction false} TrimEndIs(s: string)
    ensures AllSpace(s[|TrimEnd(s)|..])
    ensures TrimEnd(s) != [] ==> !IsSpace(TrimEnd(s)[|TrimEnd(s)| - 1])
    decreases |s|
  {
    if s != [] && IsSpace(s[|s| - 1]) {
      var front := s[..|s| - 1];
      TrimEndIs(front);
      assert s[|TrimEnd(s)|..] == front[|TrimEnd(s)|..] + [s[|s| - 1]];
    }
  }

  /** What is left of the end of `s`, and without the white space behind it. */
  lemma Surrounded(s: string, i: nat, r: string)
    requires i <= |s| && AllSpace(s[..i]) && r <= s[i..] && AllSpace(s[i..][|r|..])
    ensures exists a, b | 0 <= a <= b <= |s| :: r == s[a..b] && AllSpace(s[..a]) && AllSpace(s[b..])
  {
    var j := i + |r|;
    assert s[i..j] == s[i..][..|r|] == r;
    assert s[j..] == s[i..][|r|..];
  }

  lemma TrimEndKeepsFirst(s: string)
    ensures TrimEnd(s) != [] ==> s != [] && TrimEnd(s)[0] == s[0]
  {
  }

  /** Trimming takes away exactly the white space around a text. */
  lemma TrimExactly(s: string)
    ensures IsTrimmed(s, Trim(s))
  {
    TrimStartIs(s);
    var i := |s| - |TrimStart(s)|;
    TrimEndIs(s[i..]);
    TrimEndKeepsFirst(s[i..]);
    Surrounded(s, i, Trim(s));
  }

  /** The words of a text and one more character. */
  function OneMore(words: seq<string>, joined: bool, c: char): seq<string>
    requires joined ==> words != []
  {
    if IsSpace(c) then words
    else if joined then words[..|words| - 1] + [words[|words| - 1] + [c]]
    else words + [[c]]
  }

  predicate EndsInWord(s: string) {
    s != [] && !IsSpace(s[|s| - 1])
  }

  lemma WordsNext(s: string, c: char)
    ensures Words(s + [c]) == OneMore(Words(s), EndsInWord(s), c)
  {
    var longer := s + [c];
    assert longer[..|longer| - 1] == s && longer[|longer| - 1] == c;
    WordsUnfold(longer);
  }

  lemma WordsUnfold(s: string)
    requires s != []
    ensures var front, c := s[..|s| - 1], s[|s| - 1];
            Words(s) == OneMore(Words(front), EndsInWord(front), c)
  {
  }

  lemma OneMoreBehind(words: seq<string>, more: seq<string>, joined: bool, c: char)
    requires joined ==> more != []
    ensures OneMore(words + more, joined, c) == words + OneMore(more, joined, c)
  {
    if joined {
      var all := words + more;
      assert all[..|all| - 1] == words + more[..|more| - 1];
    }
  }

  lemma ApartNext(a: string, space: char, front: string, c: char)
    requires IsSpace(space) && Words(a + [space] + front) == Words(a) + Words(front)
    ensures Words(a + [space] + front + [c]) == Words(a) + Words(front + [c])
  {
    var s := a + [space] + front;
    assert EndsInWord(s) == EndsInWord(front) by {
      assert front != [] ==> s[|s| - 1] == front[|front| - 1];
    }
    WordsNext(s, c);
    WordsNext(front, c);
    OneMoreBehind(Words(a), Words(front), EndsInWord(front), c);
  }

  /** White space only separates words. */
  lemma {:induction false} WordsApart(a: string, space: char, b: string)
    requires IsSpace(space)
    ensures Words(a + [space] + b) == Words(a) + Words(b)
    decreases |b|
  {
    if b == [] {
      assert a + [space] + b == a + [space] && Words(a) + [] == Words(a);
      WordsNext(a, space);
    } else {
      var front, c := b[..|b| - 1], b[|b| - 1];
      assert b == front + [c] && a + [space] + b == a + [space] + front + [c];
      WordsApart(a, space, front);
      ApartNext(a, space, front, c);
    }
  }

  lemma {:induction false} TrimStartKeepsWords(s: string)
    ensures Words(TrimStart(s)) == Words(s)
    decreases |s|
  {
    if s != [] && IsSpace(s[0]) {
      TrimStartKeepsWords(s[1..]);
      WordsApart("", s[0], s[1..]);
      assert "" + [s[0]] + s[1..] == s;
    }
  }

  lemma {:induction false} TrimEndKeepsWords(s: string)
    ensures Words(TrimEnd(s)) == Words(s)
    decreases |s|
  {
    if s != [] && IsSpace(s[|s| - 1]) {
      TrimEndKeepsWords(s[..|s| - 1]);
    }
  }

  lemma TrimKeepsWords(s: string)
    ensures Words(Trim(s)) == Words(s)
  {
    TrimStartKeepsWords(s);
    TrimEndKeepsWords(TrimStart(s));
  }

  predicate Plain(word: string) {
    word != "" && forall c | c in word :: !IsSpace(c)
  }

  lemma {:induction false} WordsArePlain(s: string)
    ensures forall w | w in Words(s) :: Plain(w)
    decreases |s|
  {
    if s != [] {
      WordsArePlain(s[..|s| - 1]);
      var words, c := Words(s[..|s| - 1]), s[|s| - 1];
      if !IsSpace(c) && EndsInWord(s[..|s| - 1]) {
        assert words[|words| - 1] in words;
        forall w | w in Words(s) ensures Plain(w) {
          assert w in words || w == words[|words| - 1] + [c];
        }
      }
    }
  }

  lemma {:induction false} PlainIsOneWord(word: string)
    requires Plain(word)
    ensures Words(word) == [word]
    decreases |word|
  {
    var front, c := word[..|word| - 1], word[|word| - 1];
    assert word == front + [c];
    if front != "" {
      PlainIsOneWord(front);
      assert front[|front| - 1] in word;
    }
  }

  /** Joining words and cutting them apart again changes nothing. */
  lemma {:induction false} JoinedWords(words: seq<string>)
    requires forall w | w in words :: Plain(w)
    ensures Words(Join(words)) == words
    decreases |words|
  {
    if words != [] {
      var front, last := words[..|words| - 1], words[|words| - 1];
      assert words == front + [last];
      PlainIsOneWord(last);
      if front != [] {
        JoinedWords(front);
        WordsApart(Join(front), ' ', last);
        assert Join(front) + [' '] + last == Join(front) + " " + last;
      }
    }
  }

  function Letters(s: string): string {
    if s == "" then "" else Letters(s[..|s| - 1]) + if IsSpace(s[|s| - 1]) then "" else [s[|s| - 1]]
  }

  function Flat(words: seq<string>): string {
    if words == [] then "" else Flat(words[..|words| - 1]) + words[|words| - 1]
  }

  lemma FlatSnoc(words: seq<string>, word: string)
    ensures Flat(words + [word]) == Flat(words) + word
  {
    assert (words + [word])[..|words|] == words;
  }

  /** The words hold everything but the white space, in order. */
  lemma {:induction false} WordsHoldLetters(s: string)
    ensures Flat(Words(s)) == Letters(s)
    decreases |s|
  {
    if s != "" {
      var front, c := s[..|s| - 1], s[|s| - 1];
      var words := Words(front);
      WordsHoldLetters(front);
      if !IsSpace(c) {
        if EndsInWord(front) {
          var most, last := words[..|words| - 1], words[|words| - 1];
          assert words == most + [last];
          FlatSnoc(most, last);
          FlatSnoc(most, last + [c]);
        } else {
          FlatSnoc(words, [c]);
        }
      }
    }
  }
}
