/** Input sanitiser and question validator (src/utils/validation.py): three
    character filters, whitespace collapse, and truncation to 1000 characters. */
module Validation {
  import opened Text
  import opened Outcomes

  const MaxQuestionLength: nat := 1000

  /** Kept by the first filter: code point at least 32, or a newline. */
  predicate NotControl(c: char) { c as int >= 32 || c == '\n' }

  /** Kept by the third filter: `\w`, `\s`, or one of . , ! ? ; : ' " - */
  predicate IsSafe(c: char) { IsWordChar(c) || IsSpace(c) || c in ".,!?;:'\"-" }

  /** The comprehension that drops control characters other than newline. */
  function DropControl(s: string): (r: string)
    ensures forall c :: c in r <==> c in s && NotControl(c)
  {
    if s == [] then [] else (if NotControl(s[0]) then [s[0]] else []) + DropControl(s[1..])
  }

  /** Index of the first occurrence of `c` in `s`. */
  function IndexOf(s: string, c: char): (k: nat)
    requires c in s
    ensures k < |s| && s[k] == c && c !in s[..k]
  {
    if s[0] == c then 0 else 1 + IndexOf(s[1..], c)
  }

  /** No `'<'` of `s` is followed, anywhere later, by a `'>'`. */
  predicate NoCompleteTag(s: string) {
    forall i, j :: 0 <= i < j < |s| && s[i] == '<' ==> s[j] != '>'
  }

  /** `re.sub(r'<[^>]*>', '', s)`: scanning left to right, a `'<'` that has a
      `'>'` somewhere after it starts a match that ends at the first such
      `'>'`; the match is removed and the scan resumes after it. A `'<'` with
      no later `'>'` cannot start a match and stays. */
  function StripTags(s: string): (r: string)
    ensures forall c :: c in r ==> c in s
    ensures NoCompleteTag(r)
    decreases |s|
  {
    if s == [] then []
    else if s[0] == '<' && '>' in s[1..] then StripTags(s[IndexOf(s[1..], '>') + 2..])
    else
      var rest := StripTags(s[1..]);
      assert s[0] == '<' ==> '>' !in rest;
      [s[0]] + rest
  }

  /** `re.sub(r'[^\w\s.,!?;:\'\"-]', '', s)`. */
  function KeepSafe(s: string): (r: string)
    ensures forall c :: c in r <==> c in s && IsSafe(c)
  {
    if s == [] then [] else (if IsSafe(s[0]) then [s[0]] else []) + KeepSafe(s[1..])
  }

  /** `sanitize_input`. */
  function SanitizeInput(text: string): (r: string)
    ensures text == [] ==> r == []
    ensures forall c :: c in r ==> c in text
    ensures forall c :: c in r ==> NotControl(c) && IsSafe(c) && c != '<' && c != '>'
  {
    if text == [] then "" else KeepSafe(StripTags(DropControl(text)))
  }

  lemma {:induction false} DropControlKeeps(s: string)
    requires forall c :: c in s ==> NotControl(c)
    ensures DropControl(s) == s
  {
    if s != [] {
      DropControlKeeps(s[1..]);
    }
  }

  lemma {:induction false} StripTagsKeeps(s: string)
    requires '<' !in s
    ensures StripTags(s) == s
  {
    if s != [] {
      StripTagsKeeps(s[1..]);
    }
  }

  lemma {:induction false} KeepSafeKeeps(s: string)
    requires forall c :: c in s ==> IsSafe(c)
    ensures KeepSafe(s) == s
  {
    if s != [] {
      KeepSafeKeeps(s[1..]);
    }
  }

  /** Each filter leaves only characters the later filters keep, so
      sanitising twice is sanitising once. */
  lemma SanitizeIdempotent(s: string)
    ensures SanitizeInput(SanitizeInput(s)) == SanitizeInput(s)
  {
    var t := SanitizeInput(s);
    if t != [] {
      DropControlKeeps(t);
      StripTagsKeeps(t);
      KeepSafeKeeps(t);
    }
  }

  /** A span from a `'<'` to the next `'>'` disappears, with whatever lies
      inside it, when nothing before it could start a tag. */
  lemma {:induction false} TagSpanRemoved(a: string, b: string, c: string)
    requires '<' !in a && '>' !in b
    ensures StripTags(a + "<" + b + ">" + c) == a + StripTags(c)
    decreases |a|
  {
    if a == [] {
      assert a + "<" + b + ">" + c == "<" + b + ">" + c;
      TagAtStart(b, c);
    } else {
      var rest := a[1..] + "<" + b + ">" + c;
      assert a + "<" + b + ">" + c == [a[0]] + rest;
      TagSpanRemoved(a[1..], b, c);
      StripTagsKeepsFirst(a[0], rest);
      ConsTail(a, StripTags(c));
    }
  }

  /** A first character other than `'<'` is kept. */
  lemma StripTagsKeepsFirst(x: char, r: string)
    requires x != '<'
    ensures StripTags([x] + r) == [x] + StripTags(r)
  {
    assert ([x] + r)[1..] == r;
  }

  lemma TagAtStart(b: string, c: string)
    requires '>' !in b
    ensures StripTags("<" + b + ">" + c) == StripTags(c)
  {
    var s := "<" + b + ">" + c;
    var t := s[1..];
    assert t == b + ">" + c;
    assert t[|b|] == '>';
    var k := IndexOf(t, '>');
    assert k == |b|;
    assert s[k + 2..] == c;
  }

  /** A word of `str.split()`: non-empty, no whitespace. */
  predicate IsWord(w: string) {
    |w| > 0 && forall i :: 0 <= i < |w| ==> !IsSpace(w[i])
  }

  /** Length of the leading run of non-whitespace characters. */
  function WordLength(s: string): (n: nat)
    ensures n <= |s|
    ensures forall i :: 0 <= i < n ==> !IsSpace(s[i])
    ensures n < |s| ==> IsSpace(s[n])
  {
    if s == [] || IsSpace(s[0]) then 0 else 1 + WordLength(s[1..])
  }

  /** Python's `str.split()` with no separator: maximal runs of
      non-whitespace, in order. */
  function Split(s: string): (ws: seq<string>)
    ensures forall i :: 0 <= i < |ws| ==> IsWord(ws[i])
    decreases |s|
  {
    if s == [] then []
    else if IsSpace(s[0]) then Split(s[1..])
    else
      var n := WordLength(s);
      [s[..n]] + Split(s[n..])
  }

  /** `' '.join(words)`. */
  function Join(ws: seq<string>): string {
    JoinWith(ws, " ")
  }

  /** The shape `' '.join(s.strip().split())` gives: every whitespace
      character is a plain space standing between two non-whitespace
      characters (so none leads, none trails, no two are adjacent). */
  ghost predicate Collapsed(s: string) {
    && OnlyPlainSpaces(s)
    && NoAdjacentSpaces(s)
    && (s != [] ==> !IsSpace(s[0]) && !IsSpace(s[|s| - 1]))
  }

  ghost predicate OnlyPlainSpaces(s: string) {
    forall i :: 0 <= i < |s| && IsSpace(s[i]) ==> s[i] == ' '
  }

  ghost predicate NoAdjacentSpaces(s: string) {
    forall i, j :: 0 <= i < j < |s| && j == i + 1 ==> !IsSpace(s[i]) || !IsSpace(s[j])
  }

  /** `' '.join(s.strip().split())`. */
  function Collapse(s: string): string {
    Join(Split(Strip(s)))
  }

  /** Collapsing gives the collapsed shape, and gives nothing exactly when
      the string is all whitespace. */
  lemma CollapseShape(s: string)
    ensures Collapsed(Collapse(s))
    ensures Collapse(s) == [] <==> forall i :: 0 <= i < |s| ==> IsSpace(s[i])
  {
    var ws := Split(Strip(s));
    JoinCollapsed(ws);
    SplitEmpty(Strip(s));
    StripEmpty(s);
    JoinEmpty(ws);
  }

  lemma JoinEmpty(ws: seq<string>)
    requires forall i :: 0 <= i < |ws| ==> IsWord(ws[i])
    ensures Join(ws) == [] <==> ws == []
  {
    if |ws| > 1 {
      assert IsWord(ws[0]);
    }
  }

  lemma {:induction false} SplitEmpty(s: string)
    requires s == [] || !IsSpace(s[0])
    ensures Split(s) == [] <==> s == []
  {
  }

  /** Joining words with single spaces gives a collapsed string. */
  lemma {:induction false} JoinCollapsed(ws: seq<string>)
    requires forall i :: 0 <= i < |ws| ==> IsWord(ws[i])
    ensures Collapsed(Join(ws))
    ensures |ws| > 0 ==> Join(ws) != [] && !IsSpace(Join(ws)[0]) && Join(ws)[0] == ws[0][0]
    ensures |ws| > 0 ==> !IsSpace(Join(ws)[|Join(ws)| - 1])
    decreases |ws|
  {
    if |ws| == 1 {
      assert Join(ws) == ws[0];
      assert IsWord(ws[0]);
    } else if |ws| > 1 {
      var w, j := ws[0], Join(ws[1..]);
      JoinCollapsed(ws[1..]);
      assert IsWord(w) && IsWord(ws[1]);
      var s := w + " " + j;
      assert Join(ws) == s;
      forall i | 0 <= i < |s| && IsSpace(s[i]) ensures s[i] == ' ' {
        if i > |w| { assert s[i] == j[i - |w| - 1]; }
      }
      forall i, k | 0 <= i && k == i + 1 && k < |s| ensures !IsSpace(s[i]) || !IsSpace(s[k]) {
        if i < |w| - 1 {
          assert s[i] == w[i];
        } else if i == |w| - 1 {
          assert s[i] == w[|w| - 1];
        } else if i == |w| {
          assert s[k] == j[0];
        } else {
          assert s[i] == j[i - |w| - 1] && s[k] == j[k - |w| - 1];
        }
      }
      assert s[0] == w[0];
      assert s[|s| - 1] == j[|j| - 1];
    }
  }

  lemma {:induction false} WordLengthOfWord(w: string, rest: string)
    requires IsWord(w) && (rest == [] || IsSpace(rest[0]))
    ensures WordLength(w + rest) == |w|
    decreases |w|
  {
    assert (w + rest)[0] == w[0];
    if |w| > 1 {
      assert (w + rest)[1..] == w[1..] + rest;
      WordLengthOfWord(w[1..], rest);
    } else {
      assert (w + rest)[1..] == rest;
    }
  }

  /** Splitting what `' '.join` produced gives back the words: `split`
      inverts `join` on non-empty whitespace-free words. */
  lemma {:induction false} SplitJoin(ws: seq<string>)
    requires forall i :: 0 <= i < |ws| ==> IsWord(ws[i])
    ensures Split(Join(ws)) == ws
    decreases |ws|
  {
    if |ws| == 1 {
      assert IsWord(ws[0]);
      WordLengthOfWord(ws[0], []);
      assert ws[0] + [] == ws[0];
      assert ws[0][|ws[0]|..] == [];
    } else if |ws| > 1 {
      assert IsWord(ws[0]);
      assert Join(ws) == ws[0] + " " + Join(ws[1..]);
      SplitWordThen(ws[0], Join(ws[1..]));
      SplitJoin(ws[1..]);
      assert ws == [ws[0]] + ws[1..];
    }
  }

  /** A word followed by a space splits off as the first word. */
  lemma SplitWordThen(w: string, j: string)
    requires IsWord(w)
    ensures Split(w + " " + j) == [w] + Split(j)
  {
    var s := w + " " + j;
    AppendAssociative(w, " ", j);
    WordLengthOfWord(w, " " + j);
    assert s[..|w|] == w;
    assert s[|w|..] == " " + j;
    assert (" " + j)[1..] == j;
  }

  lemma {:induction false} CollapsedTail(s: string, n: nat)
    requires Collapsed(s) && n + 1 < |s| && s[n] == ' '
    ensures Collapsed(s[n + 1..]) && !IsSpace(s[n + 1])
  {
    var t := s[n + 1..];
    assert s[n] == s[n + 1 - 1];
    forall i | 0 <= i < |t| && IsSpace(t[i]) ensures t[i] == ' ' {
      assert t[i] == s[n + 1 + i];
    }
    forall i, k | 0 <= i && k == i + 1 && k < |t| ensures !IsSpace(t[i]) || !IsSpace(t[k]) {
      assert t[i] == s[n + 1 + i] && t[k] == s[n + 1 + k];
    }
  }

  /** A collapsed string is `' '.join` of its own words. */
  lemma JoinCons(w: string, ws: seq<string>)
    requires ws != []
    ensures Join([w] + ws) == w + " " + Join(ws)
  {
    assert ([w] + ws)[1..] == ws;
  }

  lemma {:induction false} JoinSplit(s: string)
    requires Collapsed(s)
    ensures Join(Split(s)) == s
    decreases |s|
  {
    if s != [] {
      var n := WordLength(s);
      assert Split(s) == [s[..n]] + Split(s[n..]);
      if n == |s| {
        assert s[..n] == s && s[n..] == [];
        assert Split(s) == [s];
      } else {
        assert s[n] == ' ' && n + 1 < |s|;
        CollapsedTail(s, n);
        var t := s[n + 1..];
        assert s[n..][1..] == t;
        assert Split(s[n..]) == Split(t);
        JoinSplit(t);
        assert Split(t) != [];
        JoinCons(s[..n], Split(t));
        SplitAt(s, n);
      }
    }
  }

  lemma CollapsedStrip(s: string)
    requires Collapsed(s)
    ensures Strip(s) == s
  {
    if s != [] {
      assert !IsSpace(s[0]) && !IsSpace(s[|s| - 1]);
      assert TrimStart(s) == s;
    }
  }

  /** Collapsing twice is collapsing once. */
  lemma CollapseIdempotent(s: string)
    ensures Collapse(Collapse(s)) == Collapse(s)
  {
    var c := Collapse(s);
    CollapseShape(s);
    CollapsedStrip(c);
    JoinSplit(c);
  }

  /** A prefix of a collapsed string that does not end in a space is collapsed. */
  lemma CollapsedPrefix(s: string, k: nat)
    requires Collapsed(s) && k <= |s| && (k == 0 || s[k - 1] != ' ')
    ensures Collapsed(s[..k])
  {
    var p := s[..k];
    forall i | 0 <= i < |p| && IsSpace(p[i]) ensures p[i] == ' ' {
      assert p[i] == s[i];
    }
    forall i, j | 0 <= i && j == i + 1 && j < |p| ensures !IsSpace(p[i]) || !IsSpace(p[j]) {
      assert p[i] == s[i] && p[j] == s[j];
    }
  }

  lemma {:induction false} SplitChars(s: string)
    ensures forall i, c :: 0 <= i < |Split(s)| && c in Split(s)[i] ==> c in s
    decreases |s|
  {
    if s != [] {
      if IsSpace(s[0]) {
        SplitChars(s[1..]);
        assert forall c :: c in s[1..] ==> c in s;
      } else {
        var n := WordLength(s);
        SplitChars(s[n..]);
        assert Split(s) == [s[..n]] + Split(s[n..]);
        assert forall c :: c in s[..n] ==> c in s;
        assert forall c :: c in s[n..] ==> c in s;
        forall i, c | 0 <= i < |Split(s)| && c in Split(s)[i] ensures c in s {
          if i > 0 { assert Split(s)[i] == Split(s[n..])[i - 1]; }
        }
      }
    }
  }

  lemma {:induction false} JoinChars(ws: seq<string>)
    ensures forall c :: c in Join(ws) ==> c == ' ' || exists i :: 0 <= i < |ws| && c in ws[i]
    decreases |ws|
  {
    if |ws| > 1 {
      JoinChars(ws[1..]);
      forall c | c in Join(ws)
        ensures c == ' ' || exists i :: 0 <= i < |ws| && c in ws[i]
      {
        assert Join(ws) == ws[0] + " " + Join(ws[1..]);
        if c in Join(ws[1..]) && c != ' ' {
          var i :| 0 <= i < |ws[1..]| && c in ws[1..][i];
          assert c in ws[i + 1];
        }
      }
    }
  }

  /** Collapsing only adds plain spaces. */
  lemma CollapseChars(s: string)
    ensures forall c :: c in Collapse(s) ==> c == ' ' || c in s
  {
    var t := Strip(s);
    var ws := Split(t);
    StripChars(s);
    SplitChars(t);
    JoinChars(ws);
    assert Collapse(s) == Join(ws);
    forall c | c in Collapse(s) && c != ' '
      ensures c in s
    {
      var i :| 0 <= i < |ws| && c in ws[i];
      assert c in t;
    }
  }

  /** `validate_question`. */
  function ValidateQuestion(question: string): (r: Outcome<string>)
    ensures question == [] ==> r == Raised(ValueError("Question cannot be empty"))
    ensures r.Raised? ==> r.error.ValueError?
    ensures r.Ok? ==> 0 < |r.value| <= MaxQuestionLength
  {
    if question == [] then Raised(ValueError("Question cannot be empty"))
    else
      var c := Collapse(SanitizeInput(question));
      if c == [] then Raised(ValueError("Question contains only whitespace or invalid characters"))
      else Ok(Take(c, MaxQuestionLength))
  }

  /** A question is accepted exactly when it is non-empty and something
      other than whitespace survives sanitising; the failure reasons are the
      two `ValueError` messages. */
  lemma ValidateAccepts(question: string)
    ensures ValidateQuestion(question).Ok? <==>
      question != [] && exists i :: 0 <= i < |SanitizeInput(question)| && !IsSpace(SanitizeInput(question)[i])
    ensures question != [] && ValidateQuestion(question).Raised? ==>
      ValidateQuestion(question) == Raised(ValueError("Question contains only whitespace or invalid characters"))
  {
    CollapseShape(SanitizeInput(question));
  }

  /** What an accepted question looks like: only characters the sanitiser
      keeps (plus the joining spaces), no leading whitespace, single plain
      spaces, and a trailing space only when the text was cut at 1000. */
  lemma ValidatedShape(question: string)
    requires ValidateQuestion(question).Ok?
    ensures var v := ValidateQuestion(question).value;
      && (forall c :: c in v ==> (c == ' ' || c in question) && NotControl(c) && IsSafe(c))
      && !IsSpace(v[0])
      && OnlyPlainSpaces(v)
      && NoAdjacentSpaces(v)
      && (IsSpace(v[|v| - 1]) ==> |Collapse(SanitizeInput(question))| > MaxQuestionLength)
  {
    var c := Collapse(SanitizeInput(question));
    CollapseShape(SanitizeInput(question));
    TakeShape(c, MaxQuestionLength);
    CollapseChars(SanitizeInput(question));
    assert forall c' :: c' in Take(c, MaxQuestionLength) ==> c' in c;
  }

  /** Cutting a collapsed string keeps its shape, except that the cut may
      leave a trailing space. */
  lemma TakeShape(c: string, n: nat)
    requires Collapsed(c) && c != [] && n > 0
    ensures var v := Take(c, n);
      && !IsSpace(v[0]) && OnlyPlainSpaces(v) && NoAdjacentSpaces(v)
      && (IsSpace(v[|v| - 1]) ==> |c| > n)
  {
    var v := Take(c, n);
    assert forall i :: 0 <= i < |v| ==> v[i] == c[i];
  }

  lemma ValidatedSafe(question: string)
    requires ValidateQuestion(question).Ok?
    ensures forall c :: c in ValidateQuestion(question).value ==> NotControl(c) && IsSafe(c)
  {
    var c := Collapse(SanitizeInput(question));
    CollapseChars(SanitizeInput(question));
    assert forall c' :: c' in ValidateQuestion(question).value ==> c' in c;
  }

  /** The text handed on is the collapsed text itself when it fits, and
      its first 1000 characters otherwise. */
  lemma ValidateTruncates(question: string)
    requires ValidateQuestion(question).Ok?
    ensures var c := Collapse(SanitizeInput(question));
      ValidateQuestion(question).value == if |c| <= MaxQuestionLength then c else c[..MaxQuestionLength]
  {
  }

  /** Sanitising a string made only of characters every filter keeps
      changes nothing. */
  lemma SanitizeFixes(v: string)
    requires forall c :: c in v ==> NotControl(c) && IsSafe(c)
    ensures SanitizeInput(v) == v
  {
    if v != [] {
      assert !IsSafe('<');
      DropControlKeeps(v);
      StripTagsKeeps(v);
      KeepSafeKeeps(v);
    }
  }

  /** An accepted question is accepted again unchanged, unless truncation
      left a trailing space (which a second pass would strip). */
  lemma ValidateIdempotent(question: string)
    requires ValidateQuestion(question).Ok?
    ensures var v := ValidateQuestion(question).value;
      ValidateQuestion(v) == Ok(v) <==> !IsSpace(v[|v| - 1])
  {
    var v := ValidateQuestion(question).value;
    if !IsSpace(v[|v| - 1]) {
      ValidatedUntruncated(question);
    } else {
      ValidatedFixed(question);
      ValidateShortEndsInWord(v, SanitizeInput(v));
    }
  }

  lemma ValidatedFixed(question: string)
    requires ValidateQuestion(question).Ok?
    ensures SanitizeInput(ValidateQuestion(question).value) == ValidateQuestion(question).value
  {
    ValidatedSafe(question);
    SanitizeFixes(ValidateQuestion(question).value);
  }

  lemma ValidatedUntruncated(question: string)
    requires ValidateQuestion(question).Ok?
    requires var v := ValidateQuestion(question).value; !IsSpace(v[|v| - 1])
    ensures ValidateQuestion(ValidateQuestion(question).value) == ValidateQuestion(question)
  {
    var v := ValidateQuestion(question).value;
    ValidatedFixed(question);
    CollapseShape(SanitizeInput(question));
    PrefixCollapsed(Collapse(SanitizeInput(question)), v);
    ValidateCollapsed(v, SanitizeInput(v));
  }

  /** A cut of a collapsed string that does not end in a space is collapsed. */
  lemma PrefixCollapsed(c: string, v: string)
    requires Collapsed(c) && v == Take(c, MaxQuestionLength) && v != [] && !IsSpace(v[|v| - 1])
    ensures Collapsed(v) && |v| <= MaxQuestionLength
  {
    assert v == c[..|v|];
    assert c[|v| - 1] == v[|v| - 1];
    CollapsedPrefix(c, |v|);
  }

  /** A question whose sanitised form `s` is already collapsed and short
      enough is accepted as exactly `s`. */
  lemma ValidateCollapsed(v: string, s: string)
    requires s == SanitizeInput(v) && Collapsed(s) && 0 < |s| <= MaxQuestionLength
    ensures ValidateQuestion(v) == Ok(s)
  {
    CollapseFixes(s);
  }

  /** Collapsing a collapsed string changes nothing. */
  lemma CollapseFixes(v: string)
    requires Collapsed(v)
    ensures Collapse(v) == v
  {
    CollapsedStrip(v);
    JoinSplit(v);
  }

  /** When the sanitised form `s` fits, nothing is cut, so an accepted
      question never ends in a space. */
  lemma ValidateShortEndsInWord(v: string, s: string)
    requires s == SanitizeInput(v) && |s| <= MaxQuestionLength
    ensures ValidateQuestion(v).Ok? ==> !IsSpace(ValidateQuestion(v).value[|ValidateQuestion(v).value| - 1])
  {
    ShortCollapseFits(s);
  }

  /** A short string collapses to something that needs no cut and does not
      end in whitespace. */
  lemma ShortCollapseFits(s: string)
    requires |s| <= MaxQuestionLength
    ensures var c := Collapse(s);
      Take(c, MaxQuestionLength) == c && (c != [] ==> !IsSpace(c[|c| - 1]))
  {
    CollapseNoLonger(s);
    CollapseShape(s);
  }

  lemma CollapseNoLonger(s: string)
    ensures |Collapse(s)| <= |s|
  {
    JoinSplitShrinks(Strip(s));
    StripShrinks(s);
  }

  lemma StripShrinks(s: string)
    ensures |Strip(s)| <= |s|
  {
  }

  /** `' '.join(s.split())` is never longer than `s`. */
  lemma {:induction false} JoinSplitShrinks(s: string)
    ensures |Join(Split(s))| <= |s|
    decreases |s|
  {
    if s != [] {
      if IsSpace(s[0]) {
        JoinSplitShrinks(s[1..]);
      } else {
        var n := WordLength(s);
        var rest := Split(s[n..]);
        assert Split(s) == [s[..n]] + rest;
        if rest != [] {
          assert s[n..][1..] == s[n + 1..];
          JoinSplitShrinks(s[n + 1..]);
          assert ([s[..n]] + rest)[1..] == rest;
          assert Join(Split(s)) == s[..n] + " " + Join(rest);
        }
      }
    }
  }
}
