/**
 * client/src/app/agents/hooks/useAgentForm.ts: the state behind the agent
 * creation form. Each handler computes a new state from the current one and
 * hands it to a React setter; here each handler is a function from state to
 * state. Date.now() is a parameter of BuildAgent.
 */
module AgentForm {
  import opened Text

  datatype FormData = FormData(name: string, role: string, style: string, mood: string)

  datatype FormState = FormState(
    formData: FormData,
    traits: seq<string>,
    influences: seq<string>,
    newTrait: string,
    newInfluence: string)

  /** The client-side Agent the form produces. */
  datatype FormAgent = FormAgent(
    id: string,
    name: string,
    role: string,
    traits: seq<string>,
    style: string,
    influences: seq<string>,
    mood: string)

  /** The inputs handleChange can be called for, by their `name` attribute. */
  datatype Field = Name | Role | Style | Mood

  /** The state useAgentForm starts in: role "validator", everything else empty. */
  const Initial := FormState(FormData("", "validator", "", ""), [], [], "", "")

  /** handleChange: the named field takes the input's value. */
  function Changed(s: FormState, field: Field, value: string): FormState {
    var f := s.formData;
    s.(formData := match field
                   case Name => f.(name := value)
                   case Role => f.(role := value)
                   case Style => f.(style := value)
                   case Mood => f.(mood := value))
  }

  /**
   * addTrait and addInfluence: the trimmed input is appended and the input
   * cleared, unless trimming leaves nothing; then both stay as they were.
   */
  function Appended(list: seq<string>, input: string): (seq<string>, string) {
    var entry := Trim(input, IsJsSpace);
    if entry != "" then (list + [entry], "") else (list, input)
  }

  function AddTrait(s: FormState): FormState {
    var (traits, input) := Appended(s.traits, s.newTrait);
    s.(traits := traits, newTrait := input)
  }

  function AddInfluence(s: FormState): FormState {
    var (influences, input) := Appended(s.influences, s.newInfluence);
    s.(influences := influences, newInfluence := input)
  }

  /** `list.filter((_, i) => i !== index)`, one element at a time. */
  function FilterIndex(list: seq<string>, index: int): seq<string> {
    if list == [] then []
    else FilterIndex(list[..|list| - 1], index) + (if |list| - 1 != index then [list[|list| - 1]] else [])
  }

  function RemoveTrait(s: FormState, index: int): FormState {
    s.(traits := FilterIndex(s.traits, index))
  }

  function RemoveInfluence(s: FormState, index: int): FormState {
    s.(influences := FilterIndex(s.influences, index))
  }

  /** resetForm: both lists and both inputs emptied, the fields cleared and the role set to "producer". */
  function ResetForm(s: FormState): FormState {
    FormState(FormData("", "producer", "", ""), [], [], "", "")
  }

  /** buildAgent: the form's fields and current lists, under an ID made from the clock in milliseconds. */
  function BuildAgent(s: FormState, nowMillis: int): FormAgent {
    FormAgent(IntToString(nowMillis), s.formData.name, s.formData.role, s.traits,
              s.formData.style, s.influences, s.formData.mood)
  }

  // ---------------------------------------------------------- properties

  /** handleChange changes the one field and nothing else. */
  lemma ChangedOnlyField(s: FormState, field: Field, value: string)
    ensures var after := Changed(s, field, value);
            after.traits == s.traits && after.influences == s.influences
            && after.newTrait == s.newTrait && after.newInfluence == s.newInfluence
            && (after.formData.name == if field == Name then value else s.formData.name)
            && (after.formData.role == if field == Role then value else s.formData.role)
            && (after.formData.style == if field == Style then value else s.formData.style)
            && (after.formData.mood == if field == Mood then value else s.formData.mood)
  {
  }

  /**
   * Adding appends exactly the trimmed input, which starts and ends with
   * something other than white space, and clears the input; it changes the
   * list exactly when the input is not all white space, and otherwise
   * changes nothing.
   */
  lemma AppendedIff(list: seq<string>, input: string)
    ensures var (after, rest) := Appended(list, input);
            (after != list <==> exists i :: 0 <= i < |input| && !IsJsSpace(input[i]))
            && (after != list ==> after == list + [Trim(input, IsJsSpace)] && rest == "")
            && (after == list ==> rest == input)
    ensures var (after, _) := Appended(list, input);
            after != list ==> after[|list|] != "" && !IsJsSpace(after[|list|][0])
                              && !IsJsSpace(after[|list|][|after[|list|]| - 1])
  {
    var entry := Trim(input, IsJsSpace);
    if entry != "" {
      assert (list + [entry])[|list|] == entry;
      assert |list + [entry]| != |list|;
    }
  }

  /** addTrait: the rule above for the traits, with the influences untouched. */
  lemma AddTraitRule(s: FormState)
    ensures var after := AddTrait(s);
            var entry := Trim(s.newTrait, IsJsSpace);
            (entry != "" ==> after == s.(traits := s.traits + [entry], newTrait := ""))
            && (entry == "" ==> after == s)
  {
  }

  /** addInfluence: the same rule for the influences, with the traits untouched. */
  lemma AddInfluenceRule(s: FormState)
    ensures var after := AddInfluence(s);
            var entry := Trim(s.newInfluence, IsJsSpace);
            (entry != "" ==> after == s.(influences := s.influences + [entry], newInfluence := ""))
            && (entry == "" ==> after == s)
  {
  }

  /** Removing by index drops exactly that element, keeping the rest in order; an index out of range changes nothing. */
  lemma {:induction false} FilterIndexDropsOne(list: seq<string>, index: int)
    ensures FilterIndex(list, index) == if 0 <= index < |list| then list[..index] + list[index + 1..] else list
  {
    if list != [] {
      var init := list[..|list| - 1];
      var last := list[|list| - 1];
      FilterIndexDropsOne(init, index);
      assert list == init + [last];
      if 0 <= index < |init| {
        assert list[..index] == init[..index];
        assert list[index + 1..] == init[index + 1..] + [last];
      }
    }
  }

  /** removeTrait and removeInfluence each touch only their own list. */
  lemma RemoveTouchesOneList(s: FormState, index: int)
    ensures RemoveTrait(s, index).influences == s.influences
    ensures RemoveInfluence(s, index).traits == s.traits
    ensures |RemoveTrait(s, index).traits| == if 0 <= index < |s.traits| then |s.traits| - 1 else |s.traits|
  {
    FilterIndexDropsOne(s.traits, index);
  }

  /** Removing the trait just added gives back the earlier traits. */
  lemma AddThenRemoveTrait(s: FormState)
    requires Trim(s.newTrait, IsJsSpace) != ""
    ensures RemoveTrait(AddTrait(s), |s.traits|).traits == s.traits
  {
    var added := AddTrait(s).traits;
    FilterIndexDropsOne(added, |s.traits|);
    assert added[..|s.traits|] == s.traits;
  }

  /** resetForm does not return to the initial state: the role becomes "producer" instead of "validator". */
  lemma ResetDiffersFromInitial(s: FormState)
    ensures ResetForm(s) == Initial.(formData := Initial.formData.(role := "producer"))
    ensures ResetForm(s) != Initial
    ensures BuildAgent(ResetForm(s), 0).role == "producer" && BuildAgent(Initial, 0).role == "validator"
  {
  }

  /** buildAgent copies the fields and the current lists, whatever the pending inputs hold. */
  lemma BuildAgentCopies(s: FormState, nowMillis: int)
    ensures var a := BuildAgent(s, nowMillis);
            a.name == s.formData.name && a.role == s.formData.role && a.style == s.formData.style
            && a.mood == s.formData.mood && a.traits == s.traits && a.influences == s.influences
    ensures BuildAgent(s, nowMillis) == BuildAgent(s.(newTrait := "", newInfluence := ""), nowMillis)
    ensures nowMillis >= 0 ==> AllDigits(BuildAgent(s, nowMillis).id)
  {
  }
}
