/** The expected-drift list as the single line of text an operator edits. */
module ExpectedDriftText {
  import opened Order
  import opened EnvSheet

  predicate IsSeparator(c: char) { c == ',' || c == '\n' }

  function Joined(ids: seq<string>): string {
    if ids == [] then [] else if |ids| == 1 then ids[0] else ids[0] + ", " + Joined(ids[1..])
  }

  /** The pieces of a text between separators; at least one. */
  function Split(text: string): (pieces: seq<string>)
    ensures pieces != []
  {
    if text == [] then [[]]
    else
      var rest := Split(text[1..]);
      if IsSeparator(text[0]) then [[]] + rest else [[text[0]] + rest[0]] + rest[1..]
  }

  /** The trimmed pieces that are not empty. */
  function Tokens(pieces: seq<string>): seq<string> {
    if pieces == [] then []
    else if Trim(pieces[0]) == [] then Tokens(pieces[1..])
    else [Trim(pieces[0])] + Tokens(pieces[1..])
  }

  predicate HasBlank(id: string) { exists i :: 0 <= i < |id| && IsWhitespace(id[i]) }

  /** What the parser must answer: the distinct tokens in ascending order, or the first token with a blank inside. */
  ghost function Parsed(text: string): Result<seq<string>> {
    var tokens := Tokens(Split(text));
    if exists i :: 0 <= i < |tokens| && HasBlank(tokens[i]) then Err(BlankInside(tokens[FirstBlank(tokens, |tokens|)]))
    else Ok(Sorted(Members(tokens)))
  }

  function FirstBlank(tokens: seq<string>, k: nat): (i: nat)
    requires k <= |tokens| && exists j :: 0 <= j < k && HasBlank(tokens[j])
    ensures i < k && HasBlank(tokens[i]) && forall j :: 0 <= j < i ==> !HasBlank(tokens[j])
  {
    if exists j :: 0 <= j < k - 1 && HasBlank(tokens[j]) then FirstBlank(tokens, k - 1) else k - 1
  }

  // ----- sorting and removing repeats -----

  function Itself(s: string): string { s }

  /** Removes equal neighbours of an ascending list. */
  method Dedup(s: seq<string>) returns (r: seq<string>)
    requires AscendsByText(s, Itself)
    ensures r == Sorted(Members(s))
  {
    hide LexLe, Sorted;
    r := [];
    for k := 0 to |s|
      invariant StrictlySorted(r)
      invariant forall x :: x in r <==> x in s[..k]
      invariant if k == 0 then r == [] else r != [] && r[|r| - 1] == s[k - 1]
    {
      assert s[..k + 1] == s[..k] + [s[k]];
      if r == [] || r[|r| - 1] != s[k] {
        assert k > 0 ==> LexLe(s[k - 1], s[k]);
        forall i | 0 <= i < |r| ensures LexLess(r[i], s[k]) {
          if i < |r| - 1 {
            BeforeNext(r[i], r[|r| - 1], s[k]);
          }
        }
        r := r + [s[k]];
      }
    }
    assert s[..|s|] == s;
    StrictlySortedUnique(r, Sorted(Members(s)));
  }

  lemma BeforeNext(a: string, b: string, c: string)
    requires LexLess(a, b) && LexLe(b, c)
    ensures LexLess(a, c)
  {
    LexTransitive(a, b, c);
    if a == c { LexAntisymmetric(a, b); }
  }

  method CollectTokens(text: string) returns (ids: seq<string>)
    ensures ids == Tokens(Split(text))
  {
    hide Trim, Split;
    var pieces := Split(text);
    ids := [];
    for k := 0 to |pieces|
      invariant Tokens(pieces) == ids + Tokens(pieces[k..])
    {
      assert pieces[k..][1..] == pieces[k + 1..];
      var token := Trim(pieces[k]);
      if token != [] {
        ids := ids + [token];
      }
    }
  }

  method ParseExpectedDriftText(text: string) returns (r: Result<seq<string>>)
    ensures r == Parsed(text)
  {
    hide Sorted, SortByText, Tokens, Split, HasBlank, LexLe;
    var ids := CollectTokens(text);
    for k := 0 to |ids|
      invariant forall j :: 0 <= j < k ==> !HasBlank(ids[j])
    {
      if HasBlank(ids[k]) {
        return Err(BlankInside(ids[k]));
      }
    }
    SortByTextAscends(ids, Itself);
    SameMembers(SortByText(ids, Itself), ids);
    var sorted := Dedup(SortByText(ids, Itself));
    r := Ok(sorted);
  }

  // ----- round trips -----

  predicate PlainId(id: string) {
    id != [] && forall i :: 0 <= i < |id| ==> id[i] != ',' && !IsWhitespace(id[i])
  }

  /** A list the sheet can hold. */
  ghost predicate Canonical(ids: seq<string>) {
    StrictlySorted(ids) && forall i :: 0 <= i < |ids| ==> PlainId(ids[i])
  }

  lemma {:induction false} SplitHasNoSeparators(text: string)
    ensures forall i, j :: 0 <= i < |Split(text)| && 0 <= j < |Split(text)[i]| ==> !IsSeparator(Split(text)[i][j])
  {
    if text != [] { SplitHasNoSeparators(text[1..]); }
  }

  lemma {:induction false} TrimIsPart(s: string, c: char)
    ensures c in Trim(s) ==> c in s
    ensures c in TrimEnd(s) ==> c in s
    decreases |s|
  {
    TrimStartIsPart(s, c);
    TrimEndIsPart(s, c);
    TrimEndIsPart(TrimStart(s), c);
  }

  lemma {:induction false} TrimStartIsPart(s: string, c: char)
    ensures c in TrimStart(s) ==> c in s
  {
    if s != [] { TrimStartIsPart(s[1..], c); }
  }

  lemma {:induction false} TrimEndIsPart(s: string, c: char)
    ensures c in TrimEnd(s) ==> c in s
  {
    if s != [] { TrimEndIsPart(s[..|s| - 1], c); }
  }

  lemma {:induction false} TokensAreTrimmedPieces(pieces: seq<string>, token: string)
    requires token in Tokens(pieces)
    ensures token != [] && exists i :: 0 <= i < |pieces| && Trim(pieces[i]) == token
  {
    hide Trim;
    if Trim(pieces[0]) != [] && token == Trim(pieces[0]) {
    } else {
      TokensAreTrimmedPieces(pieces[1..], token);
      var i :| 0 <= i < |pieces| - 1 && Trim(pieces[1..][i]) == token;
      assert pieces[i + 1] == pieces[1..][i];
    }
  }

  /** Whatever text is accepted, the list it gives is one the sheet can hold. */
  lemma AcceptedIsCanonical(text: string)
    requires Parsed(text).Ok?
    ensures Canonical(Parsed(text).value)
  {
    hide Trim, Split, Tokens, Sorted;
    var pieces, ids := Split(text), Parsed(text).value;
    SplitHasNoSeparators(text);
    forall i | 0 <= i < |ids| ensures PlainId(ids[i]) {
      assert ids[i] in ids;
      assert ids[i] in Members(Tokens(pieces));
      TokensAreTrimmedPieces(pieces, ids[i]);
      var p :| 0 <= p < |pieces| && Trim(pieces[p]) == ids[i];
      assert !HasBlank(ids[i]);
      forall j | 0 <= j < |ids[i]| ensures ids[i][j] != ',' {
        TrimIsPart(pieces[p], ids[i][j]);
      }
    }
  }

  lemma SplitFirst(text: string)
    requires text != []
    ensures
      var rest := Split(text[1..]);
      Split(text) == if IsSeparator(text[0]) then [[]] + rest else [[text[0]] + rest[0]] + rest[1..]
  {}

  lemma {:induction false} SplitAppend(a: string, sep: char, b: string)
    requires sep == ',' || sep == '\n'
    ensures Split(a + [sep] + b) == Split(a) + Split(b)
  {
    var whole := a + [sep] + b;
    SplitFirst(whole);
    if a == [] {
      assert whole[1..] == b;
    } else {
      SplitFirst(a);
      SplitAppend(a[1..], sep, b);
      hide Split;
      assert whole[1..] == a[1..] + [sep] + b;
      var rest := Split(a[1..]);
      assert (rest + Split(b))[1..] == rest[1..] + Split(b);
    }
  }

  lemma TokensFirst(piece: string, rest: seq<string>)
    ensures Tokens([piece] + rest) == (if Trim(piece) == [] then [] else [Trim(piece)]) + Tokens(rest)
  {
    assert ([piece] + rest)[1..] == rest;
  }

  lemma {:induction false} TokensAppend(a: seq<string>, b: seq<string>)
    ensures Tokens(a + b) == Tokens(a) + Tokens(b)
  {
    if a == [] {
      assert a + b == b;
    } else {
      TokensAppend(a[1..], b);
      TokensFirst(a[0], a[1..] + b);
      TokensFirst(a[0], a[1..]);
      hide Trim, Tokens;
      assert a == [a[0]] + a[1..] && a + b == [a[0]] + (a[1..] + b);
    }
  }

  /** Ids may be separated by commas or by line ends: either way the tokens of both parts are read. */
  lemma CommasAndLineEndsSeparate(a: string, sep: char, b: string)
    requires sep == ',' || sep == '\n'
    ensures Tokens(Split(a + [sep] + b)) == Tokens(Split(a)) + Tokens(Split(b))
  {
    SplitAppend(a, sep, b);
    TokensAppend(Split(a), Split(b));
  }

  lemma {:induction false} SplitPlain(id: string, rest: string)
    requires forall i :: 0 <= i < |id| ==> !IsSeparator(id[i])
    ensures Split(id) == [id]
    ensures Split(id + [','] + rest) == [id] + Split(rest)
  {
    if id == [] {
      assert ([','] + rest)[1..] == rest && id + [','] + rest == [','] + rest;
    } else {
      var whole := id + [','] + rest;
      SplitPlain(id[1..], rest);
      assert whole[1..] == id[1..] + [','] + rest;
      assert id == [id[0]] + id[1..];
    }
  }

  /** A blank before a text does not change its tokens. */
  lemma LeadingBlank(text: string)
    ensures Tokens(Split([' '] + text)) == Tokens(Split(text))
  {
    var pieces := Split(text);
    assert ([' '] + text)[1..] == text;
    assert Split([' '] + text) == [[' '] + pieces[0]] + pieces[1..];
    assert ([' '] + pieces[0])[1..] == pieces[0];
    assert Trim([' '] + pieces[0]) == Trim(pieces[0]);
    assert pieces == [pieces[0]] + pieces[1..];
  }

  lemma PlainIdIsToken(id: string)
    requires PlainId(id)
    ensures Trim(id) == id && !HasBlank(id) && forall i :: 0 <= i < |id| ==> !IsSeparator(id[i])
  {
    TrimUntouched(id);
  }

  lemma {:induction false} JoinedTokens(ids: seq<string>)
    requires forall i :: 0 <= i < |ids| ==> PlainId(ids[i])
    ensures Tokens(Split(Joined(ids))) == ids
  {
    hide Trim, PlainId;
    if ids == [] {
      assert Trim([]) == [] by { TrimUntouched([]); }
      assert Split([]) == [[]];
    } else {
      assert PlainId(ids[0]);
      PlainIdIsToken(ids[0]);
      assert ids[0] != [] by { PlainIsNotEmpty(ids[0]); }
      if |ids| == 1 {
        SplitPlain(ids[0], []);
        assert Tokens([ids[0]]) == [ids[0]];
      } else {
        var rest := Joined(ids[1..]);
        JoinedTokens(ids[1..]);
        SplitPlain(ids[0], [' '] + rest);
        assert Joined(ids) == ids[0] + [','] + ([' '] + rest);
        LeadingBlank(rest);
        var tail := Split([' '] + rest);
        assert ([ids[0]] + tail)[1..] == tail;
        assert Tokens([ids[0]] + tail) == [ids[0]] + Tokens(tail);
      }
    }
  }

  lemma PlainIsNotEmpty(id: string)
    requires PlainId(id)
    ensures id != []
  {}

  /** The list survives being shown and read back exactly when it is sorted, without repeats, of plain ids. */
  lemma {:induction false} FormatThenParseIff(ids: seq<string>)
    ensures Parsed(Joined(ids)) == Ok(ids) <==> Canonical(ids)
  {
    if Parsed(Joined(ids)) == Ok(ids) {
      AcceptedIsCanonical(Joined(ids));
    }
    if Canonical(ids) {
      hide Split, Tokens, Joined, Sorted, LexLe;
      JoinedTokens(ids);
      forall i | 0 <= i < |ids| ensures !HasBlank(ids[i]) { PlainIdIsToken(ids[i]); }
      StrictlySortedUnique(ids, Sorted(Members(ids)));
    }
  }

  /** Reading, showing and reading again changes nothing. */
  lemma ParseIsStable(text: string)
    requires Parsed(text).Ok?
    ensures Parsed(Joined(Parsed(text).value)) == Parsed(text)
  {
    AcceptedIsCanonical(text);
    FormatThenParseIff(Parsed(text).value);
  }
}
