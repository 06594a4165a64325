/**
  * The stand-alone skills editor. Its list holds skill objects; the field
  * edits copy the list and assign into the element objects, which the copy
  * shares with the previous list. After every change an effect reports
  * whether the list is non-empty and passes the list on.
  */
module SkillsSection {
  import Seqs

  const DefaultLevel := "Intermediate"

  /** A skill's value, as seen through its object. */
  datatype SkillValue = SkillValue(name: string, level: string)

  /** A skill object: `{ name, level }`, mutable in place. */
  class SkillItem {
    var name: string
    var level: string

    constructor(name: string, level: string)
      ensures this.name == name && this.level == level
    {
      this.name := name;
      this.level := level;
    }
  }

  class SkillsEditor {
    var skills: seq<SkillItem>
    /** The last value passed to `onComplete`. */
    var reportedComplete: bool
    /** The last list passed to `onSkillsChange`. */
    var reportedSkills: seq<SkillItem>

    /**
      * Every position holds its own object (each comes from one `addSkill`),
      * and the effect has reported the current list.
      */
    predicate Valid()
      reads this
    {
      Seqs.Distinct(skills) && reportedComplete == (|skills| > 0) && reportedSkills == skills
    }

    /** The skills' values, read through the objects. */
    function Values(): (r: seq<SkillValue>)
      reads this, skills
      ensures |r| == |skills|
      ensures forall k :: 0 <= k < |skills| ==> r[k] == SkillValue(skills[k].name, skills[k].level)
    {
      seq(|skills|, k reads this, skills requires 0 <= k < |skills| => SkillValue(skills[k].name, skills[k].level))
    }

    /** An empty list, reported incomplete by the first run of the effect. */
    constructor()
      ensures Valid() && skills == [] && !reportedComplete
    {
      skills := [];
      reportedComplete := false;
      reportedSkills := [];
    }

    /** The effect: `onComplete(skills.length > 0)` and `onSkillsChange(skills)`. */
    method Report()
      modifies this
      ensures skills == old(skills)
      ensures reportedComplete == (|skills| > 0) && reportedSkills == skills
    {
      reportedComplete := |skills| > 0;
      reportedSkills := skills;
    }

    /** `addSkill`: one new blank skill object at the end. */
    method AddSkill()
      requires Valid()
      modifies this
      ensures Valid()
      ensures |skills| == |old(skills)| + 1 && skills[..|old(skills)|] == old(skills)
      ensures fresh(skills[|skills| - 1])
      ensures Values() == old(Values()) + [SkillValue("", DefaultLevel)]
      ensures reportedComplete
    {
      var item := new SkillItem("", DefaultLevel);
      skills := skills + [item];
      Report();
    }

    /** `removeSkill(index)`: drops that position, keeping the others in order; any other index changes nothing. */
    method RemoveSkill(index: int)
      requires Valid()
      modifies this
      ensures Valid()
      ensures skills == Seqs.RemoveAt(old(skills), index)
      ensures Values() == Seqs.RemoveAt(old(Values()), index)
      ensures reportedComplete <==> |skills| > 0
    {
      skills := Seqs.RemoveAt(skills, index);
      Seqs.RemoveAtDistinct(old(skills), index);
      Report();
    }

    /**
      * The name input: `[...skills]` then `newSkills[index].name = value`.
      * The copy holds the same objects, so the old list shows the new name too.
      */
    method SetName(index: int, value: string)
      requires Valid() && 0 <= index < |skills|
      modifies this, skills[index]
      ensures Valid() && skills == old(skills)
      ensures Values() == old(Values())[index := SkillValue(value, old(skills[index].level))]
      ensures old(skills)[index].name == value
    {
      var copy := skills;
      copy[index].name := value;
      skills := copy;
      Report();
    }

    /** The level select: the same shallow copy and in-place assignment, on `level`. */
    method SetLevel(index: int, value: string)
      requires Valid() && 0 <= index < |skills|
      modifies this, skills[index]
      ensures Valid() && skills == old(skills)
      ensures Values() == old(Values())[index := SkillValue(old(skills[index].name), value)]
      ensures old(skills)[index].level == value
    {
      var copy := skills;
      copy[index].level := value;
      skills := copy;
      Report();
    }
  }
}
