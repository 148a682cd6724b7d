/** Slugs: the shapes `generateSlug`, `generateCardSlug` and
    `generateCompanySlug` build around the slugify library, and the
    `isValidSlug` check, whose pattern `^[a-z0-9]+(?:-[a-z0-9]+)*$` is run
    here as the three-state automaton it denotes. */
module Slug {
  import opened Wrappers
  import opened Text

  const MIN_SLUG_LENGTH: nat := 3
  const MAX_SLUG_LENGTH: nat := 100
  const UNIQUE_ID_LENGTH: nat := 6

  /** `slugify(text, { lower, strict, trim })`, left abstract. */
  type Slugify = string -> string

  /** `generateSlug`: `uniqueId` stands for `nanoid(6)`. */
  function GenerateSlug(slugify: Slugify, text: string, uniqueId: string): (r: string)
    requires |uniqueId| == UNIQUE_ID_LENGTH
    ensures |r| == |slugify(text)| + 1 + UNIQUE_ID_LENGTH
    ensures r[..|slugify(text)|] == slugify(text) && r[|slugify(text)|] == '-' && r[|slugify(text)| + 1..] == uniqueId
  {
    slugify(text) + "-" + uniqueId
  }

  /** `generateCardSlug`: the first and last name joined by '-'. */
  function GenerateCardSlug(slugify: Slugify, firstName: string, lastName: string, uniqueId: string): (r: string)
    requires |uniqueId| == UNIQUE_ID_LENGTH
  {
    GenerateSlug(slugify, firstName + "-" + lastName, uniqueId)
  }

  /** `generateCompanySlug`: no random suffix. */
  function GenerateCompanySlug(slugify: Slugify, companyName: string): string {
    slugify(companyName)
  }

  /** Two card slugs for the same name differ exactly when their ids differ;
      the name part is `slugify` of the two names joined by '-'. */
  lemma CardSlugsDifferByIdOnly(slugify: Slugify, firstName: string, lastName: string, a: string, b: string)
    requires |a| == UNIQUE_ID_LENGTH && |b| == UNIQUE_ID_LENGTH
    ensures GenerateCardSlug(slugify, firstName, lastName, a) == GenerateCardSlug(slugify, firstName, lastName, b) <==> a == b
    ensures var base := slugify(firstName + "-" + lastName);
      GenerateCardSlug(slugify, firstName, lastName, a)[..|base|] == base
  {
    var base := slugify(firstName + "-" + lastName) + "-";
    if base + a == base + b {
      assert a == (base + a)[|base|..];
    }
  }

  // ---------------------------------------------------------------------------
  // The retry loops of card and company creation

  /** One first slug and at most five retries. */
  const SLUG_ATTEMPTS: nat := 6

  /** The slug a retry loop settles on, from attempt `k` on: the first
      candidate not `taken`, or the last one when all are. */
  function FirstFreeFrom(taken: string -> bool, candidates: seq<string>, k: nat): (i: nat)
    requires k < |candidates|
    ensures k <= i < |candidates|
    ensures forall j :: k <= j < i ==> taken(candidates[j])
    ensures i < |candidates| - 1 ==> !taken(candidates[i])
    decreases |candidates| - k
  {
    if k == |candidates| - 1 || !taken(candidates[k]) then k
    else FirstFreeFrom(taken, candidates, k + 1)
  }

  function ChosenSlug(taken: string -> bool, candidates: seq<string>): string
    requires |candidates| == SLUG_ATTEMPTS
  {
    candidates[FirstFreeFrom(taken, candidates, 0)]
  }

  /** The loop's outcome: a free candidate whenever one exists, and the
      earliest one; a taken slug only when all six are taken. */
  lemma ChosenSlugMeaning(taken: string -> bool, candidates: seq<string>)
    requires |candidates| == SLUG_ATTEMPTS
    ensures ChosenSlug(taken, candidates) in candidates
    ensures (exists j :: 0 <= j < |candidates| && !taken(candidates[j])) ==> (
      && !taken(ChosenSlug(taken, candidates))
      && exists i :: 0 <= i < |candidates| && candidates[i] == ChosenSlug(taken, candidates)
           && forall j :: 0 <= j < i ==> taken(candidates[j]))
  {
    var i := FirstFreeFrom(taken, candidates, 0);
    if exists j :: 0 <= j < |candidates| && !taken(candidates[j]) {
      var j :| 0 <= j < |candidates| && !taken(candidates[j]);
      assert i <= j;
    }
  }

  // ---------------------------------------------------------------------------
  // The pattern

  predicate IsSlugWordChar(c: char) { 'a' <= c <= 'z' || '0' <= c <= '9' }

  /** Where the automaton stands: nothing read, inside a word, just after '-'. */
  datatype SlugState = Start | InWord | AfterDash

  function Step(st: SlugState, c: char): Option<SlugState> {
    if IsSlugWordChar(c) then Some(InWord)
    else if c == '-' && st == InWord then Some(AfterDash)
    else None
  }

  function Run(st: SlugState, s: string): Option<SlugState>
    decreases |s|
  {
    if s == [] then Some(st)
    else match Step(st, s[0])
      case None => None
      case Some(next) => Run(next, s[1..])
  }

  /** `slugRegex.test(slug)`: the whole string is read and ends inside a word. */
  predicate MatchesSlugPattern(s: string) {
    Run(Start, s) == Some(InWord)
  }

  /** `isValidSlug`. */
  predicate IsValidSlug(s: string) {
    MatchesSlugPattern(s) && MIN_SLUG_LENGTH <= Utf16Length(s) <= MAX_SLUG_LENGTH
  }

  /** The pattern, stated character by character. */
  predicate WellFormedSlug(s: string) {
    && s != []
    && (forall i :: 0 <= i < |s| ==> IsSlugWordChar(s[i]) || s[i] == '-')
    && s[0] != '-' && s[|s| - 1] != '-'
    && (forall i :: 0 <= i < |s| - 1 ==> !(s[i] == '-' && s[i + 1] == '-'))
  }

  /** What the automaton accepts from a given state: the run from InWord or
      AfterDash continues a slug whose previous character was a word
      character or a dash. */
  lemma {:induction false} RunAccepts(st: SlugState, s: string)
    requires st != Start
    ensures Run(st, s) == Some(InWord) <==>
      (if s == [] then st == InWord
       else
         && (forall i :: 0 <= i < |s| ==> IsSlugWordChar(s[i]) || s[i] == '-')
         && (st == AfterDash ==> s[0] != '-')
         && s[|s| - 1] != '-'
         && (forall i :: 0 <= i < |s| - 1 ==> !(s[i] == '-' && s[i + 1] == '-')))
    decreases |s|
  {
    if s != [] {
      var next := Step(st, s[0]);
      if next.Some? {
        RunAccepts(next.value, s[1..]);
        if |s| > 1 {
          assert forall i :: 0 <= i < |s[1..]| ==> s[1..][i] == s[i + 1];
        }
      }
    }
  }

  lemma SlugPatternMeaning(s: string)
    ensures MatchesSlugPattern(s) <==> WellFormedSlug(s)
  {
    if s != [] {
      var next := Step(Start, s[0]);
      if next.Some? {
        RunAccepts(next.value, s[1..]);
        assert forall i :: 0 <= i < |s[1..]| ==> s[1..][i] == s[i + 1];
      }
    }
  }

  /** An accepted slug is ASCII, so its JavaScript length is its length, and
      it is between 3 and 100 characters long. */
  lemma ValidSlugLength(s: string)
    requires IsValidSlug(s)
    ensures MIN_SLUG_LENGTH <= |s| <= MAX_SLUG_LENGTH
    ensures WellFormedSlug(s)
  {
    SlugPatternMeaning(s);
    Utf16LengthBmp(s);
  }
}
