/** The non-visual part of a configured form field: the name it is
    registered under, the validation rules derived from its configuration,
    and the e-mail pattern those rules may carry. Characters are ASCII. */
module DynamicFormField {
  import opened Common

  /** A field as the form configuration describes it. */
  datatype FormField = FormField(
    name: string,
    fieldType: string,
    required: bool,
    minLength: Option<int>,
    maxLength: Option<int>,
    defaultValue: Option<string>,
    listOfValues1: Option<seq<string>>)

  predicate IsUpper(c: char) { 'A' <= c <= 'Z' }
  predicate IsLetter(c: char) { 'A' <= c <= 'Z' || 'a' <= c <= 'z' }
  predicate IsDigit(c: char) { '0' <= c <= '9' }

  /** `\s` on ASCII: space, tab, line feed, vertical tab, form feed, carriage return. */
  predicate IsSpace(c: char) { c == ' ' || '\t' <= c <= '\r' }

  /** `toLowerCase` on one ASCII character. */
  function Lower(c: char): (d: char)
    ensures !IsUpper(d)
    ensures IsSpace(d) <==> IsSpace(c)
    ensures !IsUpper(c) ==> d == c
    ensures IsUpper(c) ==> 'a' <= d <= 'z' && d as int - 'a' as int == c as int - 'A' as int
  {
    if IsUpper(c) then (c as int + 32) as char else c
  }

  function LowerAll(s: string): (r: string)
    ensures |r| == |s| && forall k :: 0 <= k < |s| ==> r[k] == Lower(s[k])
  {
    seq(|s|, k requires 0 <= k < |s| => Lower(s[k]))
  }

  ghost predicate NoSpace(s: string) { forall k :: 0 <= k < |s| ==> !IsSpace(s[k]) }
  ghost predicate NoUpper(s: string) { forall k :: 0 <= k < |s| ==> !IsUpper(s[k]) }

  /** `replace(/\s+/g, "_")` read left to right: `inRun` says whether the
      character before `s` was whitespace, so that a run yields one `_`. */
  function CollapseFrom(s: string, inRun: bool): string
  {
    if s == [] then []
    else if IsSpace(s[0]) then
      (if inRun then [] else "_") + CollapseFrom(s[1..], true)
    else [s[0]] + CollapseFrom(s[1..], false)
  }

  /** Each maximal run of whitespace becomes one `_`. */
  function CollapseSpaces(s: string): (r: string)
    ensures NoSpace(r)
    ensures NoUpper(s) ==> NoUpper(r)
  {
    CollapseFromShape(s, false);
    CollapseFrom(s, false)
  }

  /** The scan leaves no whitespace and adds no upper-case letter. */
  lemma {:induction false} CollapseFromShape(s: string, inRun: bool)
    ensures NoSpace(CollapseFrom(s, inRun))
    ensures NoUpper(s) ==> NoUpper(CollapseFrom(s, inRun))
  {
    if s != [] {
      CollapseFromShape(s[1..], IsSpace(s[0]));
      assert NoUpper(s) ==> NoUpper(s[1..]);
    }
  }

  /** `name.toLowerCase().replace(/\s+/g, "_")`: the key the field's value is
      registered and stored under. */
  function NormalizeName(name: string): (r: string)
    ensures NoUpper(r) && NoSpace(r)
  {
    CollapseSpaces(LowerAll(name))
  }

  /** The key a field is registered under. */
  function FieldName(f: FormField): string {
    NormalizeName(f.name)
  }

  /** Whether a run of whitespace is open after reading `s`. */
  function EndsInRun(s: string, inRun: bool): bool {
    if s == [] then inRun else IsSpace(s[|s| - 1])
  }

  /** Collapsing `x + y` is collapsing `x`, then `y` with the run state `x`
      leaves behind. */
  lemma {:induction false} CollapseFromAppend(x: string, y: string, inRun: bool)
    ensures CollapseFrom(x + y, inRun) == CollapseFrom(x, inRun) + CollapseFrom(y, EndsInRun(x, inRun))
  {
    if x == [] {
      assert x + y == y;
    } else {
      var c, t := x[0], x[1..];
      var h := if !IsSpace(c) then [c] else if inRun then [] else "_";
      var a, b := CollapseFrom(t, IsSpace(c)), CollapseFrom(y, EndsInRun(t, IsSpace(c)));
      assert x + y == [c] + (t + y) && x == [c] + t;
      CollapseFromAppend(t, y, IsSpace(c));
      CollapseFromCons(c, t + y, inRun);
      CollapseFromCons(c, t, inRun);
      assert EndsInRun(x, inRun) == EndsInRun(t, IsSpace(c)) by {
        if t != [] {
          assert t[|t| - 1] == x[|x| - 1];
        }
      }
      calc {
        CollapseFrom(x + y, inRun);
        h + (a + b);
        (h + a) + b;
        CollapseFrom(x, inRun) + CollapseFrom(y, EndsInRun(x, inRun));
      }
    }
  }

  /** One step of the scan: what the first character contributes. */
  lemma CollapseFromCons(c: char, s: string, inRun: bool)
    ensures CollapseFrom([c] + s, inRun)
         == (if !IsSpace(c) then [c] else if inRun then [] else "_") + CollapseFrom(s, IsSpace(c))
  {
    assert ([c] + s)[0] == c;
    assert ([c] + s)[1..] == s;
  }

  /** The run state does not matter when `s` does not start with whitespace. */
  lemma RunStateIrrelevant(s: string)
    requires s == [] || !IsSpace(s[0])
    ensures CollapseFrom(s, true) == CollapseFrom(s, false)
  {
  }

  /** Inside a run, further whitespace adds nothing. */
  lemma {:induction false} RunAbsorbed(w: string)
    requires forall k :: 0 <= k < |w| ==> IsSpace(w[k])
    ensures CollapseFrom(w, true) == []
  {
    if w != [] {
      RunAbsorbed(w[1..]);
    }
  }

  lemma {:induction false} CollapseSpaceless(s: string)
    requires NoSpace(s)
    ensures CollapseSpaces(s) == s
  {
    if s != [] {
      CollapseSpaceless(s[1..]);
    }
  }

  /** Text without whitespace is only lower-cased. */
  lemma NormalizeSpaceless(s: string)
    requires NoSpace(s)
    ensures NormalizeName(s) == LowerAll(s)
  {
    CollapseSpaceless(LowerAll(s));
  }

  /** Normalising a normalised name changes nothing. */
  lemma NormalizeIdempotent(s: string)
    ensures NormalizeName(NormalizeName(s)) == NormalizeName(s)
  {
    var n := NormalizeName(s);
    assert LowerAll(n) == n;
    CollapseSpaceless(n);
  }

  /** A whitespace run followed by a non-space (or nothing) collapses to one `_`. */
  lemma CollapseRun(w: string, s: string)
    requires w != [] && forall k :: 0 <= k < |w| ==> IsSpace(w[k])
    requires s == [] || !IsSpace(s[0])
    ensures CollapseSpaces(w + s) == "_" + CollapseSpaces(s)
  {
    CollapseFromAppend(w, s, false);
    RunAbsorbed(w[1..]);
    RunStateIrrelevant(s);
  }

  /** Collapsing distributes over concatenation unless a whitespace run
      straddles the seam. */
  lemma CollapseAppend(x: string, y: string)
    requires x == [] || y == [] || !IsSpace(x[|x| - 1]) || !IsSpace(y[0])
    ensures CollapseSpaces(x + y) == CollapseSpaces(x) + CollapseSpaces(y)
  {
    CollapseFromAppend(x, y, false);
    if y != [] && !IsSpace(y[0]) {
      RunStateIrrelevant(y);
    }
  }

  lemma LowerAllAppend(x: string, y: string)
    ensures LowerAll(x + y) == LowerAll(x) + LowerAll(y)
  {
  }

  /** Normalisation works piece by piece wherever no whitespace run is cut. */
  lemma NormalizeAppend(x: string, y: string)
    requires x == [] || y == [] || !IsSpace(x[|x| - 1]) || !IsSpace(y[0])
    ensures NormalizeName(x + y) == NormalizeName(x) + NormalizeName(y)
  {
    LowerAllAppend(x, y);
    CollapseAppend(LowerAll(x), LowerAll(y));
  }

  /** A maximal whitespace run becomes exactly one `_`. */
  lemma NormalizeRun(w: string, s: string)
    requires w != [] && forall k :: 0 <= k < |w| ==> IsSpace(w[k])
    requires s == [] || !IsSpace(s[0])
    ensures NormalizeName(w + s) == "_" + NormalizeName(s)
  {
    LowerAllAppend(w, s);
    var lw, ls := LowerAll(w), LowerAll(s);
    assert lw == w;
    CollapseRun(lw, ls);
  }

  // ---------------------------------------------------------------------------
  // The e-mail pattern /^[A-Z0-9._%+-]+@[A-Z0-9.-]+\.[A-Z]{2,}$/i

  predicate IsLocalChar(c: char) {
    IsLetter(c) || IsDigit(c) || c == '.' || c == '_' || c == '%' || c == '+' || c == '-'
  }

  predicate IsDomainChar(c: char) {
    IsLetter(c) || IsDigit(c) || c == '.' || c == '-'
  }

  /** The pattern read at positions `i` (the `@`) and `j` (the last `.`): a
      non-empty local part, a non-empty domain, and a top-level part of two
      or more letters. */
  ghost predicate EmailSplit(s: string, i: int, j: int) {
    && 1 <= i && i + 1 < j && j + 3 <= |s|
    && s[i] == '@' && s[j] == '.'
    && (forall k :: 0 <= k < i ==> IsLocalChar(s[k]))
    && (forall k :: i < k < j ==> IsDomainChar(s[k]))
    && (forall k :: j < k < |s| ==> IsLetter(s[k]))
  }

  /** The language of the pattern. */
  ghost predicate EmailPattern(s: string) {
    exists i, j :: EmailSplit(s, i, j)
  }

  /** The first position of `c` in `s`, or -1. */
  function IndexOf(s: string, c: char): (i: int)
    ensures -1 <= i < |s|
    ensures i == -1 <==> c !in s
    ensures 0 <= i ==> s[i] == c && forall k :: 0 <= k < i ==> s[k] != c
  {
    if s == [] then -1
    else if s[0] == c then 0
    else
      var j := IndexOf(s[1..], c);
      if j == -1 then -1 else j + 1
  }

  /** The last position of `c` in `s`, or -1. */
  function LastIndexOf(s: string, c: char): (i: int)
    ensures -1 <= i < |s|
    ensures i == -1 <==> c !in s
    ensures 0 <= i ==> s[i] == c && forall k :: i < k < |s| ==> s[k] != c
  {
    if s == [] then -1
    else if s[|s| - 1] == c then |s| - 1
    else LastIndexOf(s[..|s| - 1], c)
  }

  /** A matcher for the pattern: the local part ends at the first `@`, the
      top-level part starts after the last `.`. */
  predicate MatchesEmail(s: string)
    ensures MatchesEmail(s) <==> EmailPattern(s)
  {
    var i := IndexOf(s, '@');
    var j := LastIndexOf(s, '.');
    var r :=
      && 1 <= i && i + 1 < j && j + 3 <= |s|
      && (forall k :: 0 <= k < i ==> IsLocalChar(s[k]))
      && (forall k :: i < k < j ==> IsDomainChar(s[k]))
      && (forall k :: j < k < |s| ==> IsLetter(s[k]));
    assert r ==> EmailSplit(s, i, j);
    assert EmailPattern(s) ==> r by {
      if EmailPattern(s) {
        var i', j' :| EmailSplit(s, i', j');
        assert s[i'] == '@' && s[j'] == '.';
      }
    }
    r
  }

  // ---------------------------------------------------------------------------
  // Validation rules

  datatype RequiredRule = NotRequired | RequiredMessage(message: string)
  datatype LengthRule = LengthRule(value: int, message: string)
  /** The e-mail pattern rule: its value is the e-mail pattern, which accepts
      what `MatchesEmail` accepts. */
  datatype PatternRule = PatternRule(message: string) {
    predicate Accepts(s: string) {
      MatchesEmail(s)
    }
  }
  datatype Rules = Rules(
    required: RequiredRule,
    minLength: Option<LengthRule>,
    maxLength: Option<LengthRule>,
    pattern: Option<PatternRule>)

  const InvalidEmail := "Invalid email address"

  /** A configured number counts only when present and non-zero. */
  predicate Truthy(n: Option<int>) { n.Some? && n.value != 0 }

  /** `field.defaultValue || ""`. */
  function DefaultOf(f: FormField): string {
    f.defaultValue.GetOr("")
  }

  function RequiredRuleOf(f: FormField): RequiredRule {
    if f.required then RequiredMessage(f.name + " is required") else NotRequired
  }

  /** The rules object of the field's controller; none for a field type
      that renders nothing. */
  function FieldRules(f: FormField): (r: Option<Rules>)
    ensures r.Some? <==> f.fieldType == "TEXT" || f.fieldType == "LIST" || f.fieldType == "RADIO"
    ensures r.Some? ==>
      && (r.value.required.RequiredMessage? <==> f.required)
      && (f.required ==> r.value.required.message == f.name + " is required")
    ensures r.Some? ==>
      && (r.value.minLength.Some? <==> f.fieldType == "TEXT" && Truthy(f.minLength))
      && (r.value.maxLength.Some? <==> f.fieldType == "TEXT" && Truthy(f.maxLength))
      && (r.value.pattern.Some? <==> f.fieldType == "TEXT" && LowerAll(f.name) == "email")
    ensures r.Some? && r.value.minLength.Some? ==>
      r.value.minLength.value
        == LengthRule(f.minLength.value, "Minimum length is " + IntToString(f.minLength.value) + " characters")
    ensures r.Some? && r.value.maxLength.Some? ==>
      r.value.maxLength.value
        == LengthRule(f.maxLength.value, "Maximum length is " + IntToString(f.maxLength.value) + " characters")
    ensures r.Some? && r.value.pattern.Some? ==> r.value.pattern.value.message == InvalidEmail
  {
    if f.fieldType == "TEXT" then
      Some(Rules(
        RequiredRuleOf(f),
        if Truthy(f.minLength) then
          Some(LengthRule(f.minLength.value, "Minimum length is " + IntToString(f.minLength.value) + " characters"))
        else None,
        if Truthy(f.maxLength) then
          Some(LengthRule(f.maxLength.value, "Maximum length is " + IntToString(f.maxLength.value) + " characters"))
        else None,
        if LowerAll(f.name) == "email" then Some(PatternRule(InvalidEmail)) else None))
    else if f.fieldType == "LIST" || f.fieldType == "RADIO" then
      Some(Rules(RequiredRuleOf(f), None, None, None))
    else None
  }

  /** A TEXT field named "email" (in any case) carries a pattern rule that
      accepts exactly the addresses of the e-mail pattern. */
  lemma EmailFieldRule(f: FormField, s: string)
    requires f.fieldType == "TEXT" && LowerAll(f.name) == "email"
    ensures FieldRules(f).Some? && FieldRules(f).value.pattern.Some?
    ensures FieldRules(f).value.pattern.value.message == InvalidEmail
    ensures FieldRules(f).value.pattern.value.Accepts(s) <==> EmailPattern(s)
  {
  }
}
