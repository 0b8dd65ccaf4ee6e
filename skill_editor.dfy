/** The capped skill-list editors: the post-project form keeps at most 10
    skills and the profile edit page at most 20. Both add the trimmed input
    when it is non-empty, not yet in the list and there is room, warn when the
    list is full, and remove a skill by filtering out every equal entry. */
module SkillEditor {
  import opened Common
  import opened Text

  const ProjectSkillCap: nat := 10
  const ProfileSkillCap: nat := 20

  /** No duplicates, no blank or untrimmed entries, and no more than `cap` entries. */
  predicate WellFormedSkills(skills: seq<string>, cap: nat) {
    && |skills| <= cap
    && Distinct(skills)
    && forall i :: 0 <= i < |skills| ==> skills[i] != [] && IsTrimmed(skills[i])
  }

  /** The add condition: the trimmed input is non-empty and new, and there is room. */
  predicate Accepts(skills: seq<string>, input: string, cap: nat) {
    Trim(input) != [] && Trim(input) !in skills && |skills| < cap
  }

  /** The list after an add. */
  function AddSkill(skills: seq<string>, input: string, cap: nat): (r: seq<string>)
    ensures |skills| <= |r| <= |skills| + 1 && r[..|skills|] == skills
    ensures forall x :: x in r <==> x in skills || (Accepts(skills, input, cap) && x == Trim(input))
    ensures |r| == |skills| + 1 <==> Accepts(skills, input, cap)
  {
    if Accepts(skills, input, cap) then
      assert (skills + [Trim(input)])[..|skills|] == skills;
      skills + [Trim(input)]
    else skills
  }

  /** The list after removing `skill`: every equal entry goes, the rest keep their order. */
  function RemoveSkill(skills: seq<string>, skill: string): (r: seq<string>)
    ensures skill !in r
    ensures forall x :: x != skill ==> (x in r <==> x in skills)
    ensures multiset(r) <= multiset(skills)
    ensures skill !in skills ==> r == skills
  {
    var p := (x: string) => x != skill;
    FilterMembershipAll(skills, p);
    if skill !in skills then
      FilterAllPass(skills, p);
      Filter(skills, p)
    else Filter(skills, p)
  }

  /** Adding keeps the list well formed, whatever the input. */
  lemma AddKeepsWellFormed(skills: seq<string>, input: string, cap: nat)
    requires WellFormedSkills(skills, cap)
    ensures WellFormedSkills(AddSkill(skills, input, cap), cap)
  {
    if Accepts(skills, input, cap) {
      var t := Trim(input);
      var r := skills + [t];
      forall i, j | 0 <= i < j < |r| ensures r[i] != r[j] {
        if j == |skills| {
          assert r[i] == skills[i];
        }
      }
    }
  }

  /** Removing keeps the list well formed. */
  lemma RemoveKeepsWellFormed(skills: seq<string>, skill: string, cap: nat)
    requires WellFormedSkills(skills, cap)
    ensures WellFormedSkills(RemoveSkill(skills, skill), cap)
  {
    var r := RemoveSkill(skills, skill);
    FilterDistinct(skills, (x: string) => x != skill);
    assert |r| <= |skills| by {
      assert |multiset(r)| <= |multiset(skills)|;
    }
    forall i | 0 <= i < |r| ensures r[i] != [] && IsTrimmed(r[i]) {
      assert r[i] in skills;
    }
  }

  /** Removing a skill just added gives the list back. */
  lemma AddThenRemove(skills: seq<string>, input: string, cap: nat)
    requires Accepts(skills, input, cap)
    ensures RemoveSkill(AddSkill(skills, input, cap), Trim(input)) == skills
  {
    var t := Trim(input);
    var p := (x: string) => x != t;
    FilterAppend(skills, [t], p);
    FilterAllPass(skills, p);
    assert Filter([t], p) == [];
  }

  /** A full list refuses every input. */
  lemma FullListRefuses(skills: seq<string>, input: string, cap: nat)
    requires |skills| >= cap
    ensures AddSkill(skills, input, cap) == skills
  {
  }

  /** One editor: the list, the text typed so far and its cap. */
  class SkillList {
    const cap: nat
    var skills: seq<string>
    var input: string

    predicate Valid()
      reads this
    {
      WellFormedSkills(skills, cap)
    }

    /** An editor starting from `initial` (empty on the post-project form, the
        stored profile skills on the profile edit page). */
    constructor (cap: nat, initial: seq<string>)
      ensures this.cap == cap && skills == initial && input == ""
    {
      this.cap := cap;
      skills := initial;
      input := "";
    }

    /** The text field changed. */
    method SetInput(text: string)
      modifies this
      ensures input == text && skills == old(skills)
    {
      input := text;
    }

    /** `handleAddSkill`: the trimmed input is appended and the field cleared
        when the add condition holds; otherwise nothing changes, and
        `limitWarning` reports the "Skill Limit Reached" toast, shown when the
        list is already full. */
    method Add() returns (limitWarning: bool)
      modifies this
      ensures skills == AddSkill(old(skills), old(input), cap)
      ensures input == if Accepts(old(skills), old(input), cap) then "" else old(input)
      ensures limitWarning <==> !Accepts(old(skills), old(input), cap) && |old(skills)| >= cap
      ensures old(Valid()) ==> Valid()
    {
      limitWarning := false;
      var t := Trim(input);
      if t != [] && t !in skills && |skills| < cap {
        if Valid() {
          AddKeepsWellFormed(skills, input, cap);
        }
        skills := skills + [t];
        input := "";
      } else if |skills| >= cap {
        limitWarning := true;
      }
    }

    /** `handleRemoveSkill`. */
    method Remove(skill: string)
      modifies this
      ensures skills == RemoveSkill(old(skills), skill) && input == old(input)
      ensures old(Valid()) ==> Valid()
    {
      if Valid() {
        RemoveKeepsWellFormed(skills, skill, cap);
      }
      skills := RemoveSkill(skills, skill);
    }
  }
}
