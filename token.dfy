/** spomato/token.py: the string and clock helpers of the OAuth flow. The browser,
    the HTTP calls and the environment are not part of this model; the clock
    `time.time()` is the parameter `now`. */
module Token {
  import opened Tables

  // ---------------------------------------------------------------------------
  // str.split() and ' '.join

  /** The characters `str.split()` with no argument splits on: Python's whitespace. */
  predicate IsSpace(c: char)
  {
    c == ' ' || ('\t' <= c <= '\r') || ('\U{1c}' <= c <= '\U{1f}') || c == '\U{85}' || c == '\U{a0}'
    || c == '\U{1680}' || ('\U{2000}' <= c <= '\U{200a}') || c == '\U{2028}' || c == '\U{2029}'
    || c == '\U{202f}' || c == '\U{205f}' || c == '\U{3000}'
  }

  /** A token of a split: non-empty, without whitespace. */
  predicate IsWord(w: string)
  {
    w != [] && forall i :: 0 <= i < |w| ==> !IsSpace(w[i])
  }

  /** The length of the run of non-whitespace characters `s` starts with. */
  function WordLength(s: string): (n: nat)
    ensures n <= |s|
    ensures forall i :: 0 <= i < n ==> !IsSpace(s[i])
    ensures n < |s| ==> IsSpace(s[n])
  {
    if s == [] || IsSpace(s[0]) then 0
    else
      var m := WordLength(s[1..]);
      assert forall i :: 1 <= i < m + 1 ==> s[i] == s[1..][i - 1];
      m + 1
  }

  /** `s.split()`: the maximal runs of non-whitespace characters, in order. */
  function Split(s: string): seq<string>
    decreases |s|
  {
    if s == [] then []
    else if IsSpace(s[0]) then Split(s[1..])
    else
      var n := WordLength(s);
      [s[..n]] + Split(s[n..])
  }

  /** `' '.join(words)`. */
  function Join(words: seq<string>): string
  {
    if words == [] then ""
    else if |words| == 1 then words[0]
    else words[0] + " " + Join(words[1..])
  }

  /** Every token of a split is a word. */
  lemma {:induction false} SplitWords(s: string)
    ensures forall w :: w in Split(s) ==> IsWord(w)
    decreases |s|
  {
    if s != [] {
      if IsSpace(s[0]) {
        SplitWords(s[1..]);
      } else {
        var n := WordLength(s);
        SplitWords(s[n..]);
      }
    }
  }

  /** A split finds no token exactly when the text is all whitespace. */
  lemma {:induction false} SplitEmpty(s: string)
    ensures Split(s) == [] <==> forall i :: 0 <= i < |s| ==> IsSpace(s[i])
    decreases |s|
  {
    if s != [] && IsSpace(s[0]) {
      SplitEmpty(s[1..]);
      assert forall i :: 1 <= i < |s| ==> s[i] == s[1..][i - 1];
    }
  }

  /** A word followed by nothing or by whitespace is read back as one token. */
  lemma WordThenSpace(w: string, t: string)
    requires IsWord(w) && (t == [] || IsSpace(t[0]))
    ensures WordLength(w + t) == |w|
    decreases |w|
  {
    var s := w + t;
    if |w| > 1 {
      assert s[1..] == w[1..] + t;
      WordThenSpace(w[1..], t);
    } else {
      assert s[1..] == t;
    }
  }

  /** Joining words with single spaces and splitting again gives the words back. */
  lemma {:induction false} SplitJoin(words: seq<string>)
    requires forall w :: w in words ==> IsWord(w)
    ensures Split(Join(words)) == words
  {
    if words != [] {
      var w := words[0];
      var t := if |words| == 1 then "" else " " + Join(words[1..]);
      assert Join(words) == w + t;
      WordThenSpace(w, t);
      assert (w + t)[..|w|] == w && (w + t)[|w|..] == t;
      if |words| > 1 {
        SplitJoin(words[1..]);
        assert t[1..] == Join(words[1..]);
      }
    }
  }

  /** Words joined with single spaces neither start nor end with whitespace. */
  lemma {:induction false} JoinTrimmed(words: seq<string>)
    requires forall w :: w in words ==> IsWord(w)
    ensures var s := Join(words); s != "" ==> !IsSpace(s[0]) && !IsSpace(s[|s| - 1])
    ensures Join(words) == "" <==> words == []
  {
    if |words| > 1 {
      var w, rest := words[0], Join(words[1..]);
      assert forall v :: v in words[1..] ==> v in words;
      JoinTrimmed(words[1..]);
      assert w in words;
      var s := w + " " + rest;
      assert Join(words) == s;
      assert s[0] == w[0] && s[|s| - 1] == rest[|rest| - 1];
    } else if |words| == 1 {
      assert words[0] in words;
    }
  }

  // ---------------------------------------------------------------------------
  // list.sort() on strings

  /** Python's string order: by code point, a prefix first. */
  predicate LessEq(a: string, b: string)
  {
    if a == [] then true
    else if b == [] then false
    else if a[0] != b[0] then a[0] < b[0]
    else LessEq(a[1..], b[1..])
  }

  lemma {:induction false} LessEqTotal(a: string, b: string)
    ensures LessEq(a, b) || LessEq(b, a)
  {
    if a != [] && b != [] && a[0] == b[0] {
      LessEqTotal(a[1..], b[1..]);
    }
  }

  lemma {:induction false} LessEqTransitive(a: string, b: string, c: string)
    requires LessEq(a, b) && LessEq(b, c)
    ensures LessEq(a, c)
  {
    if a != [] && b != [] && c != [] && a[0] == b[0] && b[0] == c[0] {
      LessEqTransitive(a[1..], b[1..], c[1..]);
    }
  }

  lemma {:induction false} LessEqAntisymmetric(a: string, b: string)
    requires LessEq(a, b) && LessEq(b, a)
    ensures a == b
  {
    if a != [] && b != [] {
      LessEqAntisymmetric(a[1..], b[1..]);
      assert a == [a[0]] + a[1..] && b == [b[0]] + b[1..];
    }
  }

  predicate Sorted(s: seq<string>)
  {
    forall i, j :: 0 <= i < j < |s| ==> LessEq(s[i], s[j])
  }

  /** `x` put before the first element it does not exceed. */
  function Insert(x: string, s: seq<string>): seq<string>
  {
    if s == [] then [x]
    else if LessEq(x, s[0]) then [x] + s
    else [s[0]] + Insert(x, s[1..])
  }

  /** `scopes.sort()`, as insertion sort. */
  function Sort(s: seq<string>): seq<string>
  {
    if s == [] then [] else Insert(s[0], Sort(s[1..]))
  }

  lemma SortedCons(h: string, r: seq<string>)
    requires Sorted(r) && forall y :: y in r ==> LessEq(h, y)
    ensures Sorted([h] + r)
  {
    var s := [h] + r;
    forall i, j | 0 <= i < j < |s|
      ensures LessEq(s[i], s[j])
    {
      if i == 0 {
        assert s[j] == r[j - 1];
      } else {
        assert s[i] == r[i - 1] && s[j] == r[j - 1];
      }
    }
  }

  lemma {:induction false} InsertSpec(x: string, s: seq<string>)
    requires Sorted(s)
    ensures Sorted(Insert(x, s))
    ensures multiset(Insert(x, s)) == multiset(s) + multiset{x}
  {
    if s == [] {
    } else if LessEq(x, s[0]) {
      forall y | y in s
        ensures LessEq(x, y)
      {
        if y != s[0] {
          var j :| 0 <= j < |s| && s[j] == y;
          LessEqTransitive(x, s[0], y);
        }
      }
      SortedCons(x, s);
    } else {
      var h, t := s[0], s[1..];
      assert s == [h] + t;
      LessEqTotal(x, h);
      assert Sorted(t);
      InsertSpec(x, t);
      var r := Insert(x, t);
      forall y | y in r
        ensures LessEq(h, y)
      {
        assert y in multiset(r);
        if y != x {
          assert y in t;
          var j :| 0 <= j < |t| && t[j] == y;
          assert s[j + 1] == y;
        }
      }
      SortedCons(h, r);
    }
  }

  /** The sort returns its input in ascending order, duplicates kept. */
  lemma {:induction false} SortSpec(s: seq<string>)
    ensures Sorted(Sort(s))
    ensures multiset(Sort(s)) == multiset(s)
  {
    if s != [] {
      SortSpec(s[1..]);
      InsertSpec(s[0], Sort(s[1..]));
      assert s == [s[0]] + s[1..];
    }
  }

  /** Sorting a sorted list changes nothing. */
  lemma {:induction false} SortSorted(s: seq<string>)
    requires Sorted(s)
    ensures Sort(s) == s
  {
    if s != [] {
      assert Sorted(s[1..]);
      SortSorted(s[1..]);
      assert Sort(s) == Insert(s[0], s[1..]);
      if |s| > 1 {
        assert LessEq(s[0], s[1]);
      }
    }
  }

  lemma {:induction false} LessEqReflexive(a: string)
    ensures LessEq(a, a)
  {
    if a != [] {
      LessEqReflexive(a[1..]);
    }
  }

  /** The first element of a sorted list is at most every element. */
  lemma SortedHead(s: seq<string>, y: string)
    requires Sorted(s) && y in s
    ensures LessEq(s[0], y)
  {
    var i :| 0 <= i < |s| && s[i] == y;
    if i == 0 {
      LessEqReflexive(y);
    }
  }

  lemma SortedTail(s: seq<string>)
    requires Sorted(s) && s != []
    ensures Sorted(s[1..])
  {
    forall i, j | 0 <= i < j < |s| - 1
      ensures LessEq(s[1..][i], s[1..][j])
    {
      assert s[1..][i] == s[i + 1] && s[1..][j] == s[j + 1];
    }
  }

  /** Two sorted lists of the same tokens start alike. */
  lemma SortedHeads(s: seq<string>, t: seq<string>)
    requires Sorted(s) && Sorted(t) && multiset(s) == multiset(t) && s != []
    ensures t != [] && s[0] == t[0]
  {
    assert s[0] in multiset(t);
    assert t[0] in multiset(s);
    SortedHead(t, s[0]);
    SortedHead(s, t[0]);
    LessEqAntisymmetric(s[0], t[0]);
  }

  /** Lists of the same tokens with the same head have tails of the same tokens. */
  lemma MultisetTails(s: seq<string>, t: seq<string>)
    requires s != [] && t != [] && s[0] == t[0] && multiset(s) == multiset(t)
    ensures multiset(s[1..]) == multiset(t[1..])
  {
    assert s == [s[0]] + s[1..];
    assert t == [t[0]] + t[1..];
    assert multiset(s) == multiset{s[0]} + multiset(s[1..]);
    assert multiset(t) == multiset{t[0]} + multiset(t[1..]);
    assert multiset(s[1..]) == multiset(s) - multiset{s[0]};
    assert multiset(t[1..]) == multiset(t) - multiset{t[0]};
  }

  /** Everything sorted from the same tokens is the same list: the order fixes the
      result, whichever sort produced it. */
  lemma {:induction false} SortedUnique(s: seq<string>, t: seq<string>)
    requires Sorted(s) && Sorted(t) && multiset(s) == multiset(t)
    ensures s == t
    decreases |s|
  {
    if s == [] {
      assert |t| == |multiset(t)| == 0;
    } else {
      SortedHeads(s, t);
      MultisetTails(s, t);
      SortedTail(s);
      SortedTail(t);
      SortedUnique(s[1..], t[1..]);
      assert s == [s[0]] + s[1..] && t == [t[0]] + t[1..];
    }
  }

  // ---------------------------------------------------------------------------
  // _normalize_scope

  /** `_normalize_scope`: None for None or the empty string, else the whitespace
      tokens sorted and joined by single spaces. */
  function NormalizeScope(scope: Option<string>): Option<string>
  {
    if scope.None? || scope.value == "" then None
    else Some(Join(Sort(Split(scope.value))))
  }

  /** None comes back exactly for None and for the empty string. */
  lemma NormalizeScopeNone(scope: Option<string>)
    ensures NormalizeScope(scope).None? <==> scope.None? || scope == Some("")
  {
  }

  /** A non-empty scope comes back as its tokens, ascending, duplicates kept,
      single-spaced and without leading or trailing whitespace. */
  lemma NormalizeScopeTokens(s: string)
    requires s != ""
    ensures var n := NormalizeScope(Some(s)).value;
      && Split(n) == Sort(Split(s))
      && Sorted(Split(n))
      && multiset(Split(n)) == multiset(Split(s))
      && (n != "" ==> !IsSpace(n[0]) && !IsSpace(n[|n| - 1]))
  {
    var words := Split(s);
    SplitWords(s);
    SortSpec(words);
    var sorted := Sort(words);
    assert forall w :: w in sorted ==> w in multiset(words);
    SplitJoin(sorted);
    JoinTrimmed(sorted);
  }

  /** Normalising a normalised, non-empty scope gives it back. */
  lemma NormalizeScopeIdempotent(s: string)
    requires s != "" && NormalizeScope(Some(s)) != Some("")
    ensures NormalizeScope(NormalizeScope(Some(s))) == NormalizeScope(Some(s))
  {
    var n := NormalizeScope(Some(s)).value;
    NormalizeScopeTokens(s);
    SortSorted(Split(n));
  }

  /** A non-empty scope of whitespace alone gives the empty string, not None, and
      nothing else does. */
  lemma NormalizeScopeBlank(s: string)
    requires s != ""
    ensures NormalizeScope(Some(s)) == Some("") <==> forall i :: 0 <= i < |s| ==> IsSpace(s[i])
  {
    SplitEmpty(s);
    SplitWords(s);
    SortSpec(Split(s));
    var sorted := Sort(Split(s));
    assert forall w :: w in sorted ==> w in multiset(Split(s));
    JoinTrimmed(sorted);
  }

  /** The scope `get_new_token` asks for. */
  const ReadScope: string := "playlist-read-private"
  const ModifyScope: string := "playlist-modify-private"

  /** The requested scope splits into the two scopes, in the order written. */
  lemma RequestedScopeWords()
    ensures Split(ReadScope + " " + ModifyScope) == [ReadScope, ModifyScope]
  {
    var words := [ReadScope, ModifyScope];
    assert IsWord(ReadScope);
    assert IsWord(ModifyScope);
    assert Join(words) == ReadScope + " " + ModifyScope;
    SplitJoin(words);
  }

  /** `'playlist-modify-private' < 'playlist-read-private'`. */
  lemma RequestedScopeOrder()
    ensures !LessEq(ReadScope, ModifyScope)
  {
    assert ReadScope[..9] == ModifyScope[..9];
    assert ReadScope[9..][0] == 'r' && ModifyScope[9..][0] == 'm';
    LessEqDrop(ReadScope, ModifyScope, 9);
  }

  /** `read_scope + ' ' + modify_scope` normalises to the two scopes in ascending order. */
  lemma RequestedScope()
    ensures NormalizeScope(Some(ReadScope + " " + ModifyScope)) == Some(ModifyScope + " " + ReadScope)
  {
    RequestedScopeWords();
    RequestedScopeOrder();
    var words := [ReadScope, ModifyScope];
    assert words[1..] == [ModifyScope];
    assert Sort([ModifyScope]) == [ModifyScope];
    assert Sort(words) == Insert(ReadScope, [ModifyScope]);
    assert Insert(ReadScope, [ModifyScope]) == [ModifyScope, ReadScope];
    assert Join([ModifyScope, ReadScope]) == ModifyScope + " " + ReadScope;
  }

  /** Strings that share a prefix compare as what follows it. */
  lemma {:induction false} LessEqDrop(a: string, b: string, n: nat)
    requires n <= |a| && n <= |b| && a[..n] == b[..n]
    ensures LessEq(a, b) == LessEq(a[n..], b[n..])
  {
    if n > 0 {
      assert a[0] == a[..n][0] == b[..n][0] == b[0];
      assert a[1..][..n - 1] == a[1..n] == b[1..n] == b[1..][..n - 1];
      LessEqDrop(a[1..], b[1..], n - 1);
      assert a[1..][n - 1..] == a[n..] && b[1..][n - 1..] == b[n..];
    }
  }

  // ---------------------------------------------------------------------------
  // str.split(sep) and the code in the redirect URL

  /** `sep` occurs in `s` at position `i`. */
  predicate Occurs(s: string, sep: string, i: nat)
  {
    i + |sep| <= |s| && s[i..i + |sep|] == sep
  }

  /** `sep` occurs nowhere in `s`. */
  predicate Free(s: string, sep: string)
  {
    forall i :: 0 <= i <= |s| ==> !Occurs(s, sep, i)
  }

  /** `s.find(sep)`: the first position where `sep` occurs, None when it does not. */
  function FindFirst(s: string, sep: string): (r: Option<nat>)
    requires sep != []
    ensures r.Some? ==> Occurs(s, sep, r.value) && forall i :: 0 <= i < r.value ==> !Occurs(s, sep, i)
    ensures r.None? ==> Free(s, sep)
    decreases |s|
  {
    if |s| < |sep| then None
    else if s[..|sep|] == sep then Some(0)
    else
      var rest := FindFirst(s[1..], sep);
      OccursTail(s, sep);
      match rest
      case None => None
      case Some(i) => Some(i + 1)
  }

  lemma OccursTail(s: string, sep: string)
    requires s != []
    ensures forall i :: 1 <= i <= |s| ==> (Occurs(s, sep, i) <==> Occurs(s[1..], sep, i - 1))
  {
    forall i | 1 <= i <= |s|
      ensures Occurs(s, sep, i) <==> Occurs(s[1..], sep, i - 1)
    {
      if i + |sep| <= |s| {
        assert s[1..][i - 1..i - 1 + |sep|] == s[i..i + |sep|];
      }
    }
  }

  /** `s.split(sep)`: the pieces between the occurrences of `sep`, in order. */
  function SplitOn(s: string, sep: string): (pieces: seq<string>)
    requires sep != []
    ensures |pieces| >= 1
    decreases |s|
  {
    match FindFirst(s, sep)
    case None => [s]
    case Some(i) => [s[..i]] + SplitOn(s[i + |sep|..], sep)
  }

  /** `sep.join(pieces)`. */
  function JoinOn(pieces: seq<string>, sep: string): string
  {
    if pieces == [] then ""
    else if |pieces| == 1 then pieces[0]
    else pieces[0] + sep + JoinOn(pieces[1..], sep)
  }

  /** Joining the pieces of a split with the separator gives the text back. */
  lemma {:induction false} SplitOnJoin(s: string, sep: string)
    requires sep != []
    ensures JoinOn(SplitOn(s, sep), sep) == s
    decreases |s|
  {
    match FindFirst(s, sep)
    case None =>
    case Some(i) =>
      var head, tail := s[..i], s[i + |sep|..];
      SplitOnJoin(tail, sep);
      Slices(s, i, i + |sep|);
      assert s[i..i + |sep|] == sep;
      assert SplitOn(s, sep) == [head] + SplitOn(tail, sep);
  }

  lemma Slices(s: string, i: nat, j: nat)
    requires i <= j <= |s|
    ensures s == s[..i] + s[i..j] + s[j..]
  {
  }

  /** No piece of a split holds the separator. */
  lemma {:induction false} SplitOnFree(s: string, sep: string)
    requires sep != []
    ensures forall p :: p in SplitOn(s, sep) ==> Free(p, sep)
    decreases |s|
  {
    match FindFirst(s, sep)
    case None =>
    case Some(i) =>
      var tail := s[i + |sep|..];
      SplitOnFree(tail, sep);
      PrefixFree(s, sep, i);
  }

  /** Text before the first occurrence of `sep` does not hold `sep`. */
  lemma PrefixFree(s: string, sep: string, n: nat)
    requires sep != [] && n <= |s| && forall i :: 0 <= i < n ==> !Occurs(s, sep, i)
    ensures Free(s[..n], sep)
  {
    forall i | 0 <= i <= n && Occurs(s[..n], sep, i)
      ensures false
    {
      assert s[..n][i..i + |sep|] == s[i..i + |sep|];
      assert Occurs(s, sep, i);
    }
  }

  /** The first piece of a split: a prefix of the text, free of the separator, that
      ends where the text ends or the separator first occurs. */
  lemma FirstPiece(s: string, sep: string)
    requires sep != []
    ensures var p := SplitOn(s, sep)[0];
      && |p| <= |s| && s[..|p|] == p && Free(p, sep)
      && (|p| == |s| || Occurs(s, sep, |p|))
  {
    match FindFirst(s, sep)
    case None =>
    case Some(i) =>
      PrefixFree(s, sep, i);
  }

  /** A prefix of a text free of `sep` is free of it. */
  lemma FreePrefix(s: string, sep: string, n: nat)
    requires sep != [] && n <= |s| && Free(s, sep)
    ensures Free(s[..n], sep)
  {
    PrefixFree(s, sep, n);
  }

  /** Free of the one-character string `[c]` means without the character `c`. */
  lemma FreeChar(s: string, c: char)
    requires Free(s, [c])
    ensures forall i :: 0 <= i < |s| ==> s[i] != c
  {
    forall i | 0 <= i < |s|
      ensures s[i] != c
    {
      assert !Occurs(s, [c], i);
      assert s[i..i + 1] == [s[i]];
    }
  }

  const CodeMarker: string := "?code="

  /** `codeurl.split("?code=")[1].split('&')[0]`: the index `[1]` raises when the
      marker does not occur. */
  function GetUrlCode(codeurl: string): Result<string>
  {
    var pieces := SplitOn(codeurl, CodeMarker);
    if |pieces| < 2 then Failure(IndexOutOfRange)
    else Success(SplitOn(pieces[1], "&")[0])
  }

  /** The code taken from the text after the first marker. */
  function CodeAfter(after: string): string
  {
    SplitOn(SplitOn(after, CodeMarker)[0], "&")[0]
  }

  /** The extraction succeeds exactly when the marker occurs, and then reads the
      code from the text after its first occurrence. */
  lemma GetUrlCodeShape(codeurl: string)
    ensures GetUrlCode(codeurl).Failure? <==> Free(codeurl, CodeMarker)
    ensures GetUrlCode(codeurl).Failure? ==> GetUrlCode(codeurl).error == IndexOutOfRange
    ensures GetUrlCode(codeurl).Success? ==>
              var at := FindFirst(codeurl, CodeMarker).value;
              GetUrlCode(codeurl).value == CodeAfter(codeurl[at + |CodeMarker|..])
  {
    match FindFirst(codeurl, CodeMarker)
    case None =>
    case Some(at) =>
      assert !Free(codeurl, CodeMarker);
      var after := codeurl[at + |CodeMarker|..];
      assert SplitOn(codeurl, CodeMarker)[1] == SplitOn(after, CodeMarker)[0];
  }

  /** The code read from a text is a prefix of it holding neither `&` nor the
      marker, and it stops at the end, at a `&` or at the next marker. */
  lemma CodeAfterSpec(after: string)
    ensures var code := CodeAfter(after);
      && |code| <= |after| && after[..|code|] == code
      && (forall i :: 0 <= i < |code| ==> code[i] != '&')
      && Free(code, CodeMarker)
      && (|code| == |after| || after[|code|] == '&' || Occurs(after, CodeMarker, |code|))
  {
    var piece := SplitOn(after, CodeMarker)[0];
    FirstPiece(after, CodeMarker);
    var code := SplitOn(piece, "&")[0];
    FirstPiece(piece, "&");
    FreeChar(code, '&');
    FreePrefix(piece, CodeMarker, |code|);
    assert piece[..|code|] == code;
    assert after[..|code|] == code;
    if |code| < |piece| {
      assert piece[|code|..|code| + 1] == "&";
      assert after[|code|] == piece[|code|];
    }
  }

  /** The code extraction fails exactly when the marker is absent; otherwise the
      code is the text right after the first marker, up to the first `&`, the
      next marker or the end, whichever comes first: so it holds neither. */
  lemma GetUrlCodeSpec(codeurl: string)
    ensures GetUrlCode(codeurl).Failure? <==> Free(codeurl, CodeMarker)
    ensures GetUrlCode(codeurl).Failure? ==> GetUrlCode(codeurl).error == IndexOutOfRange
    ensures GetUrlCode(codeurl).Success? ==>
              var code := GetUrlCode(codeurl).value;
              var at := FindFirst(codeurl, CodeMarker).value;
              var after := codeurl[at + |CodeMarker|..];
              && |code| <= |after| && after[..|code|] == code
              && (forall i :: 0 <= i < |code| ==> code[i] != '&')
              && Free(code, CodeMarker)
              && (|code| == |after| || after[|code|] == '&' || Occurs(after, CodeMarker, |code|))
  {
    GetUrlCodeShape(codeurl);
    if GetUrlCode(codeurl).Success? {
      var at := FindFirst(codeurl, CodeMarker).value;
      CodeAfterSpec(codeurl[at + |CodeMarker|..]);
    }
  }

  // ---------------------------------------------------------------------------
  // Expiry arithmetic

  /** `int(x)` on a float: truncation toward zero. */
  function Trunc(x: real): int
  {
    if x >= 0.0 then x.Floor else -((-x).Floor)
  }

  /** Line 20 of `get_token`: the cached token is renewed when
      `int(expires_at) - int(time.time()) <= 0`. */
  predicate NeedsRefresh(expiresAt: int, now: real)
  {
    expiresAt - Trunc(now) <= 0
  }

  /** For a clock at or past the epoch the token is renewed exactly when the clock
      has reached `expires_at`. */
  lemma NeedsRefreshSpec(expiresAt: int, now: real)
    requires now >= 0.0
    ensures NeedsRefresh(expiresAt, now) <==> now >= expiresAt as real
  {
  }

  /** The values of a token response the model tells apart. */
  datatype Value = IntValue(i: int) | StrValue(s: string) | NoneValue

  /** `_add_custom_values_to_token_info` with the clock as `now`: a response without
      `expires_in` raises `KeyError`, one whose `expires_in` is a string or None raises
      `TypeError`. */
  function AddCustomValues(tokenInfo: map<string, Value>, scope: Option<string>, now: real)
    : Result<map<string, Value>>
  {
    if "expires_in" !in tokenInfo then Failure(MissingKey("expires_in"))
    else
      match tokenInfo["expires_in"]
      case IntValue(n) =>
        Success(tokenInfo["expires_at" := IntValue(Trunc(now) + n)]
                         ["scope" := if scope.Some? then StrValue(scope.value) else NoneValue])
      case _ => Failure(NotANumber("expires_in"))
  }

  /** The stored token info gains `expires_at = int(now) + expires_in` and the scope,
      and keeps every other entry as the response gave it. */
  lemma AddCustomValuesSpec(tokenInfo: map<string, Value>, scope: Option<string>, now: real)
    ensures var r := AddCustomValues(tokenInfo, scope, now);
      && (r.Failure? <==> "expires_in" !in tokenInfo || !tokenInfo["expires_in"].IntValue?)
      && (r.Success? ==>
            && r.value.Keys == tokenInfo.Keys + {"expires_at", "scope"}
            && r.value["expires_at"] == IntValue(Trunc(now) + tokenInfo["expires_in"].i)
            && r.value["scope"] == (if scope.Some? then StrValue(scope.value) else NoneValue)
            && forall k :: k in tokenInfo && k != "expires_at" && k != "scope" ==> r.value[k] == tokenInfo[k])
  {
  }

  /** A token stored at clock `now` is renewed at a later clock `later` exactly when
      `later` has reached `int(now) + expires_in`. */
  lemma TokenLifetime(tokenInfo: map<string, Value>, scope: Option<string>, now: real, later: real)
    requires AddCustomValues(tokenInfo, scope, now).Success?
    requires now >= 0.0 && later >= 0.0
    ensures var stored := AddCustomValues(tokenInfo, scope, now).value;
      NeedsRefresh(stored["expires_at"].i, later) <==>
        later >= (now.Floor + tokenInfo["expires_in"].i) as real
  {
    var stored := AddCustomValues(tokenInfo, scope, now).value;
    NeedsRefreshSpec(stored["expires_at"].i, later);
  }
}
