/**
 * `AgentIdentifier::from_str` (kepo/src/run.rs): an existing path wins,
 * otherwise the string must follow the agent naming convention
 * `^([a-z][a-z0-9]*)(-[a-z0-9]+)*$`. Whether the path exists is an input.
 */
module AgentIdentifier {
  import opened Wrappers

  datatype AgentIdentifier = Named(name: string) | Path(path: string)

  predicate IsLower(c: char) { 'a' <= c <= 'z' }
  predicate IsAlnum(c: char) { IsLower(c) || '0' <= c <= '9' }
  predicate IsNameChar(c: char) { IsAlnum(c) || c == '-' }

  /** States of the automaton for `^([a-z][a-z0-9]*)(-[a-z0-9]+)*$`. */
  datatype NameState = Start | InHead | AfterDash | InSegment | Rejected

  function Next(q: NameState, c: char): NameState {
    match q
    case Start => if IsLower(c) then InHead else Rejected
    case InHead => if IsAlnum(c) then InHead else if c == '-' then AfterDash else Rejected
    case AfterDash => if IsAlnum(c) then InSegment else Rejected
    case InSegment => if IsAlnum(c) then InSegment else if c == '-' then AfterDash else Rejected
    case Rejected => Rejected
  }

  /** The state after reading all of `s` from `Start`. */
  function StateAfter(s: string): NameState
  {
    if s == [] then Start else Next(StateAfter(s[..|s| - 1]), s[|s| - 1])
  }

  /** `regex.is_match(s)` for the naming convention. */
  predicate MatchesConvention(s: string) {
    StateAfter(s) == InHead || StateAfter(s) == InSegment
  }

  /** Every character is `[a-z0-9-]`, the first a letter, and no dash follows a dash. */
  ghost predicate WellFormedSoFar(s: string) {
    && |s| > 0 && IsLower(s[0])
    && (forall i :: 0 <= i < |s| ==> IsNameChar(s[i]))
    && (forall i :: 0 <= i < |s| - 1 ==> !(s[i] == '-' && s[i + 1] == '-'))
  }

  /** The naming convention as plain properties of the characters. */
  ghost predicate IsValidName(s: string) {
    WellFormedSoFar(s) && s[|s| - 1] != '-'
  }

  lemma {:induction false} StateAfterMeaning(s: string)
    ensures StateAfter(s) ==
      if s == [] then Start
      else if !WellFormedSoFar(s) then Rejected
      else if '-' !in s then InHead
      else if s[|s| - 1] == '-' then AfterDash
      else InSegment
  {
    if s != [] {
      var p, c := s[..|s| - 1], s[|s| - 1];
      assert s == p + [c];
      StateAfterMeaning(p);
      if p == [] {
        assert s == [c];
      } else {
        assert WellFormedSoFar(s) <==> WellFormedSoFar(p) && IsNameChar(c) && !(p[|p| - 1] == '-' && c == '-') by {
          if WellFormedSoFar(p) && IsNameChar(c) && !(p[|p| - 1] == '-' && c == '-') {
            forall i | 0 <= i < |s| ensures IsNameChar(s[i]) {
              if i < |p| { assert s[i] == p[i]; }
            }
            forall i | 0 <= i < |s| - 1 ensures !(s[i] == '-' && s[i + 1] == '-') {
              if i < |p| - 1 { assert s[i] == p[i] && s[i + 1] == p[i + 1]; }
            }
          }
          if WellFormedSoFar(s) {
            assert s[|s| - 1] == c && s[|s| - 2] == p[|p| - 1];
            assert IsNameChar(s[|s| - 1]);
            forall i | 0 <= i < |p| ensures IsNameChar(p[i]) { assert p[i] == s[i]; }
            forall i | 0 <= i < |p| - 1 ensures !(p[i] == '-' && p[i + 1] == '-') {
              assert p[i] == s[i] && p[i + 1] == s[i + 1];
            }
          }
        }
        assert ('-' in s) <==> ('-' in p || c == '-');
      }
    }
  }

  /** The automaton and the character properties accept exactly the same strings. */
  lemma {:induction false} ConventionMeansValidName(s: string)
    ensures MatchesConvention(s) <==> IsValidName(s)
  {
    StateAfterMeaning(s);
    if s != [] && WellFormedSoFar(s) && '-' !in s {
      assert s[|s| - 1] in s;
    }
  }

  /** What a valid name looks like, spelled out. */
  lemma {:induction false} ValidNameShape(s: string)
    requires MatchesConvention(s)
    ensures |s| > 0 && IsLower(s[0]) && s[0] != '-' && s[|s| - 1] != '-'
    ensures forall i :: 0 <= i < |s| ==> IsNameChar(s[i])
    ensures forall i :: 0 <= i < |s| - 1 ==> !(s[i] == '-' && s[i + 1] == '-')
  {
    ConventionMeansValidName(s);
  }

  /** `AgentIdentifier::from_str`; `pathExists` stands for `std::fs::metadata(s).is_ok()`. */
  function FromStr(s: string, pathExists: bool): (r: Result<AgentIdentifier, string>)
    ensures pathExists ==> r == Ok(Path(s))
    ensures !pathExists ==> (r.Ok? <==> IsValidName(s))
    ensures !pathExists && r.Ok? ==> r.value == Named(s)
    ensures r.Err? ==> r.error == "Invalid agent identifier: " + s
  {
    ConventionMeansValidName(s);
    if pathExists then Ok(Path(s))
    else if MatchesConvention(s) then Ok(Named(s))
    else Err("Invalid agent identifier: " + s)
  }
}
