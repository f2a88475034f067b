/** Environment ids derived from labels. */
module LabelId {
  import opened EnvSheet

  predicate LowerAlphanumeric(c: char) { 'a' <= c <= 'z' || '0' <= c <= '9' }

  predicate Alphanumeric(c: char) { LowerAlphanumeric(c) || 'A' <= c <= 'Z' }

  predicate Separates(c: char) { c == '-' || c == '_' || IsWhitespace(c) }

  /**
   * A lower-casing of characters: as usual on ASCII, and on any other character some text without ASCII capitals
   * (the table itself is left open).
   */
  ghost predicate Lowercases(fold: char -> string) {
    && (forall c: char :: c < 128 as char ==> fold(c) == [LowerAscii(c)])
    && (forall c, i :: 0 <= i < |fold(c)| ==> !('A' <= fold(c)[i] <= 'Z'))
  }

  function Lowered(s: string, fold: char -> string): string {
    if s == [] then [] else fold(s[0]) + Lowered(s[1..], fold)
  }

  /** The id so far, and whether a separator is pending. */
  datatype Scan = Scan(out: string, dash: bool)

  function Pushed(s: Scan, c: char): Scan {
    if Alphanumeric(c) then Scan((if s.dash && s.out != [] then s.out + ['-'] else s.out) + [c], false)
    else if Separates(c) then Scan(s.out, true)
    else s
  }

  function Scanned(text: string, k: nat): Scan
    requires k <= |text|
  {
    if k == 0 then Scan([], false) else Pushed(Scanned(text, k - 1), text[k - 1])
  }

  const FALLBACK := "env"

  function Named(text: string): string {
    var out := Scanned(text, |text|).out;
    if out == [] then FALLBACK else out
  }

  function Derived(name: string, fold: char -> string): string { Named(Lowered(Trim(name), fold)) }

  /** Runs of lower-case alphanumerics joined by single dashes. */
  predicate WellFormed(id: string) {
    && id != [] && LowerAlphanumeric(id[0]) && LowerAlphanumeric(id[|id| - 1])
    && (forall i :: 0 <= i < |id| ==> LowerAlphanumeric(id[i]) || id[i] == '-')
    && (forall i :: 0 < i < |id| ==> !(id[i - 1] == '-' && id[i] == '-'))
  }

  predicate NoCapitals(text: string) { forall i :: 0 <= i < |text| ==> !('A' <= text[i] <= 'Z') }

  lemma {:induction false} LoweredHasNoCapitals(s: string, fold: char -> string)
    requires Lowercases(fold)
    ensures NoCapitals(Lowered(s, fold))
  {
    if s != [] { LoweredHasNoCapitals(s[1..], fold); }
  }

  lemma {:induction false} ScannedIsWellFormed(text: string, k: nat)
    requires k <= |text| && NoCapitals(text)
    ensures Scanned(text, k).out == [] || WellFormed(Scanned(text, k).out)
  {
    if k > 0 {
      ScannedIsWellFormed(text, k - 1);
      assert !('A' <= text[k - 1] <= 'Z');
    }
  }

  function TrimDashes(s: string): string {
    if s != [] && s[0] == '-' then TrimDashes(s[1..])
    else if s != [] && s[|s| - 1] == '-' then TrimDashes(s[..|s| - 1])
    else s
  }

  /** Scans the lower-cased label once, then falls back when nothing usable remains. */
  method DeriveIdFromLabel(name: string, fold: char -> string) returns (id: string)
    requires Lowercases(fold)
    ensures id == Derived(name, fold) && WellFormed(id)
  {
    var text := Lowered(Trim(name), fold);
    LoweredHasNoCapitals(Trim(name), fold);
    hide Lowercases, Lowered, Trim;
    var out, dash := [], false;
    for k := 0 to |text|
      invariant Scan(out, dash) == Scanned(text, k)
    {
      var c := text[k];
      if Alphanumeric(c) {
        if dash && out != [] {
          out := out + ['-'];
        }
        out := out + [c];
        dash := false;
      } else if Separates(c) {
        dash := true;
      }
    }
    ScannedIsWellFormed(text, |text|);
    var trimmed := TrimDashes(out);
    assert trimmed == out;
    id := if trimmed == [] then FALLBACK else trimmed;
  }

  // ----- what the id keeps of the label -----

  function Kept(text: string, k: nat): string
    requires k <= |text|
  {
    if k == 0 then [] else if Alphanumeric(text[k - 1]) then Kept(text, k - 1) + [text[k - 1]] else Kept(text, k - 1)
  }

  function WithoutDashes(s: string): string {
    if s == [] then []
    else if s[|s| - 1] == '-' then WithoutDashes(s[..|s| - 1]) else WithoutDashes(s[..|s| - 1]) + [s[|s| - 1]]
  }

  lemma WithoutDashesAppend(s: string, c: char)
    ensures WithoutDashes(s + [c]) == WithoutDashes(s) + if c == '-' then [] else [c]
  {
    assert (s + [c])[..|s|] == s;
  }

  lemma PushedKeeps(s: Scan, c: char)
    ensures WithoutDashes(Pushed(s, c).out) == WithoutDashes(s.out) + if Alphanumeric(c) then [c] else []
  {
    assert Alphanumeric(c) ==> c != '-';
    WithoutDashesAppend(s.out, '-');
    WithoutDashesAppend(s.out, c);
    WithoutDashesAppend(s.out + ['-'], c);
    hide WithoutDashes, Separates, Alphanumeric;
  }

  /** Without its dashes the id is exactly the label's alphanumerics, in order. */
  lemma {:induction false} KeepsAlphanumerics(text: string, k: nat)
    requires k <= |text|
    ensures WithoutDashes(Scanned(text, k).out) == Kept(text, k)
  {
    hide WithoutDashes, Pushed, Alphanumeric;
    if k > 0 {
      KeepsAlphanumerics(text, k - 1);
      PushedKeeps(Scanned(text, k - 1), text[k - 1]);
    } else {
      assert WithoutDashes([]) == [] by { NoDashes(); }
    }
  }

  lemma NoDashes()
    ensures WithoutDashes([]) == []
  {}

  /** After a kept character, the scan is in the middle of a word until a separator comes. */
  lemma {:induction false} DashMeansSeparator(text: string, i: nat, k: nat)
    requires i < k <= |text| && Alphanumeric(text[i]) && forall m :: i < m < k ==> !Alphanumeric(text[m])
    ensures Scanned(text, k).out == Scanned(text, i + 1).out
    ensures Scanned(text, k).dash <==> exists m :: i < m < k && Separates(text[m])
  {
    if i + 1 < k {
      DashMeansSeparator(text, i, k - 1);
      if Scanned(text, k).dash && !Scanned(text, k - 1).dash { assert Separates(text[k - 1]); }
      if exists m :: i < m < k && Separates(text[m]) {
        var m :| i < m < k && Separates(text[m]);
        assert m < k - 1 || m == k - 1;
      }
    }
  }

  /** The ASCII letters and digits. */
  predicate Keeps(c: char) {
    var n := c as int;
    48 <= n <= 57 || 65 <= n <= 90 || 97 <= n <= 122
  }

  lemma KeepsIsAlphanumeric(c: char)
    ensures Keeps(c) <==> Alphanumeric(c)
  {}

  /**
   * Successive kept characters are joined directly, or by one dash exactly when a minus, an underscore or white space
   * lay between them.
   */
  lemma DashesMarkSeparators(text: string, i: nat, j: nat)
    requires i < j < |text| && Keeps(text[i]) && Keeps(text[j])
    requires forall m :: i < m < j ==> !Keeps(text[m])
    ensures
      var separated := exists m :: i < m < j && (text[m] == '-' || text[m] == '_' || IsWhitespace(text[m]));
      Scanned(text, j + 1).out == Scanned(text, i + 1).out + (if separated then ['-'] else []) + [text[j]]
  {
    forall m | i <= m <= j ensures Keeps(text[m]) <==> Alphanumeric(text[m]) { KeepsIsAlphanumeric(text[m]); }
    DashMeansSeparator(text, i, j);
    assert Scanned(text, i + 1).out != [];
  }

  // ----- deriving again -----

  lemma {:induction false} LoweredFixes(id: string, fold: char -> string)
    requires Lowercases(fold) && forall i :: 0 <= i < |id| ==> LowerAlphanumeric(id[i]) || id[i] == '-'
    ensures Lowered(id, fold) == id
  {
    if id != [] {
      LoweredFixes(id[1..], fold);
      assert id[0] < 128 as char;
      assert fold(id[0]) == [id[0]];
      assert id == [id[0]] + id[1..];
    }
  }

  lemma {:induction false} ScannedFixes(id: string, k: nat)
    requires WellFormed(id) && 0 < k <= |id|
    ensures
      Scanned(id, k) == if id[k - 1] == '-' then Scan(id[..k - 1], true) else Scan(id[..k], false)
  {
    if k == 1 {
      assert id[..1] == [id[0]];
      assert Scanned(id, 0) == Scan([], false);
    } else {
      ScannedFixes(id, k - 1);
      assert id[..k] == id[..k - 1] + [id[k - 1]];
      assert id[..k - 1] == id[..k - 2] + [id[k - 2]];
    }
  }

  /** The ids that derive to themselves are exactly the well-formed ones, so deriving twice is deriving once. */
  lemma DerivingIsIdempotent(id: string, name: string, fold: char -> string)
    requires Lowercases(fold)
    ensures Derived(id, fold) == id <==> WellFormed(id)
    ensures Derived(Derived(name, fold), fold) == Derived(name, fold)
  {
    DerivedIsWellFormed(id, fold);
    DerivedIsWellFormed(name, fold);
    if WellFormed(id) { WellFormedIsFixed(id, fold); }
    WellFormedIsFixed(Derived(name, fold), fold);
  }

  lemma DerivedIsWellFormed(name: string, fold: char -> string)
    requires Lowercases(fold)
    ensures WellFormed(Derived(name, fold))
  {
    hide Trim, Lowered, Lowercases;
    LoweredHasNoCapitals(Trim(name), fold);
    ScannedIsWellFormed(Lowered(Trim(name), fold), |Lowered(Trim(name), fold)|);
  }

  lemma WellFormedIsFixed(id: string, fold: char -> string)
    requires Lowercases(fold) && WellFormed(id)
    ensures Derived(id, fold) == id
  {
    TrimUntouched(id);
    LoweredFixes(id, fold);
    hide Trim, Lowered, Lowercases;
    ScannedFixes(id, |id|);
    assert id[..|id|] == id;
  }
}
