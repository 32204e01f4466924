/** The onboarding survey (src/components/OnboardingChatbot.tsx): ten
    questions asked one at a time, and the `SurveyScreen` state machine over the
    current step, the answers given so far, the text input and the selected
    options.

    A text question is answered with its trimmed input, a single-select
    question with the first selected option, and a multiselect question with
    the selected list, or with the empty list when the selection holds the
    sentinel "Ninguna". The multiselect of health conditions lists "None"
    rather than "Ninguna", so the sentinel can never be clicked; the model
    keeps both strings as they are. */
module OnboardingChatbot {
  import opened Collections
  import opened Strings

  /** The keys of the profile, one per question. */
  datatype Field =
    | Name | City | HealthConditions | Medications | ClimateAffects
    | OutdoorActivities | ClimateInfluence | AlertTypes | NotificationFrequency
    | FavoriteClimate

  datatype QuestionType = Text | Select | Multiselect

  /** A question of the survey; titles, descriptions and section names are
      display text and are not modelled. */
  datatype Question = Question(id: string, field: Field, kind: QuestionType, options: seq<string>)

  /** A stored answer: a string, or a list of strings. */
  datatype Answer = Str(text: string) | List(items: seq<string>)

  datatype UserProfile = UserProfile(
    name: string,
    city: string,
    healthConditions: seq<string>,
    medications: string,
    climateAffects: string,
    outdoorActivities: seq<string>,
    climateInfluence: string,
    alertTypes: seq<string>,
    notificationFrequency: string,
    favoriteClimate: string)

  /** The option that clears every other option of a multiselect. */
  const Ninguna := "Ninguna"

  const Questions: seq<Question> := [
    Question("name", Name, Text, []),
    Question("city", City, Text, []),
    Question("health_conditions", HealthConditions, Multiselect, [
      "None",
      "Allergies (pollen, dust, mold)",
      "Asthma or COPD",
      "Cardiovascular problems",
      "Skin problems",
      "Joint or muscle pain",
      "Sensitivity to heat or cold"]),
    Question("medications", Medications, Select, ["Yes", "No", "Not sure"]),
    Question("climate_affects", ClimateAffects, Select, [
      "Extreme heat ☀️",
      "High humidity or rain 🌧️",
      "Strong wind or dust 💨",
      "Intense cold ❄️",
      "Pollution or dry air 🌫️"]),
    Question("outdoor_activities", OutdoorActivities, Multiselect, [
      "None or very few",
      "Physical exercise or sports",
      "Gardening or agriculture",
      "Walks or hiking",
      "Outdoor work",
      "Social or recreational events"]),
    Question("climate_influence", ClimateInfluence, Select, [
      "A lot, I usually adapt my plans",
      "Sometimes, depending on the type of activity",
      "Little or none"]),
    Question("alert_types", AlertTypes, Multiselect, [
      "Riesgos para la salud según mi perfil",
      "Recomendaciones para planificar actividades",
      "Alertas sobre radiación UV y calidad del aire",
      "Sugerencias de prevención o cuidado diario"]),
    Question("notification_frequency", NotificationFrequency, Select, [
      "Solo cuando haya alertas importantes",
      "Cada mañana con el pronóstico personalizado",
      "Semanalmente con un resumen y sugerencias"]),
    Question("favorite_climate", FavoriteClimate, Select, [
      "Soleado y cálido ☀️",
      "Fresco o lluvioso 🌧️",
      "Ventoso y nublado 🌬️",
      "Frío y seco ❄️"])
  ]

  /** The profile fields that hold a list of strings. */
  predicate IsListField(f: Field)
  {
    f == HealthConditions || f == OutdoorActivities || f == AlertTypes
  }

  /** The survey asks ten questions, one per profile field, and exactly the
      multiselect questions fill list fields. */
  lemma QuestionsTable()
    ensures |Questions| == 10
    ensures forall i, j :: 0 <= i < j < |Questions| ==> Questions[i].field != Questions[j].field
    ensures forall i :: 0 <= i < |Questions| ==>
      (Questions[i].kind == Multiselect <==> IsListField(Questions[i].field))
    ensures forall i :: 0 <= i < |Questions| ==> (Questions[i].kind == Text <==> Questions[i].options == [])
  {
  }

  /** No question offers the sentinel: the health question lists "None". */
  lemma SentinelNeverOffered()
    ensures forall i :: 0 <= i < |Questions| ==> Ninguna !in Questions[i].options
    ensures "None" in Questions[2].options && Questions[2].kind == Multiselect
  {
  }

  /** `progress`: the percentage of the survey reached at a step. */
  function Progress(step: nat): (p: real)
    requires step < |Questions|
    ensures 10.0 <= p <= 100.0
    ensures p == 100.0 <==> step == |Questions| - 1
  {
    ((step + 1) as real / |Questions| as real) * 100.0
  }

  lemma ProgressIncreasing(i: nat, j: nat)
    requires i < j < |Questions|
    ensures Progress(i) < Progress(j)
  {
  }

  /** `canProceed`: a text question needs input that is not blank after
      trimming, any other question a non-empty selection. */
  predicate CanProceed(kind: QuestionType, text: string, selected: seq<string>)
    ensures CanProceed(kind, text, selected) <==> if kind == Text then !AllWhitespace(text) else selected != []
  {
    TrimEmptyIffBlank(text);
    if kind == Text then |Trim(text)| > 0 else |selected| > 0
  }

  /** The value `handleNext` stores for the current inputs, or `None` when its
      guard returns early. */
  function StoredValue(kind: QuestionType, text: string, selected: seq<string>): (r: Option<Answer>)
    ensures r.Some? <==> CanProceed(kind, text, selected)
    ensures r.Some? && kind == Text ==> r.value.Str? && |r.value.text| > 0
    ensures r.Some? && kind == Text ==> r.value == Str(Trim(text))
    ensures r.Some? && kind == Multiselect ==> r.value.List? && (r.value.items == [] || r.value.items == selected)
    ensures r.Some? && kind == Select ==> r.value == Str(selected[0])
  {
    match kind
    case Text => if |Trim(text)| == 0 then None else Some(Str(Trim(text)))
    case Multiselect =>
      if |selected| == 0 then None
      else Some(List(if Ninguna in selected then [] else selected))
    case Select => if |selected| == 0 then None else Some(Str(selected[0]))
  }

  /** The guard of `handleNext` is exactly a blank text input or an empty
      selection. */
  lemma NextBlockedIffBlank(kind: QuestionType, text: string, selected: seq<string>)
    ensures StoredValue(kind, text, selected).None? <==>
      (kind == Text && AllWhitespace(text)) || (kind != Text && selected == [])
  {
    TrimEmptyIffBlank(text);
  }

  /** A stored text answer is the input without its surrounding whitespace. */
  lemma StoredTextIsTrimmed(text: string, selected: seq<string>)
    requires StoredValue(Text, text, selected).Some?
    ensures var s := StoredValue(Text, text, selected).value.text;
      s == Trim(text) && !IsJsWhitespace(s[0]) && !IsJsWhitespace(s[|s| - 1]) && Trim(s) == s
  {
    TrimIdempotent(text);
  }

  /** A multiselect answer is stored empty exactly when the selection holds the
      sentinel. */
  lemma SentinelStoresEmpty(selected: seq<string>)
    requires selected != []
    ensures StoredValue(Multiselect, "", selected) == Some(List([])) <==> Ninguna in selected
  {
  }

  /** `prev.filter(o => o !== x)`. */
  function Without(s: seq<string>, x: string): seq<string>
  {
    Filter(s, IsNot(x))
  }

  function IsNot(x: string): string -> bool
  {
    o => o != x
  }

  lemma WithoutMembership(s: seq<string>, x: string, o: string)
    ensures o in Without(s, x) <==> o in s && o != x
  {
    if o in s && o != x {
      var i :| 0 <= i < |s| && s[i] == o;
    }
    if o in Without(s, x) {
      var i :| 0 <= i < |Without(s, x)| && Without(s, x)[i] == o;
    }
  }

  /** Removal keeps the order of what remains: the result is `s` picked at
      increasing positions, exactly those whose option is not `x`. */
  lemma WithoutInOrder(s: seq<string>, x: string)
    ensures exists idx :: (PicksAt(idx, s, Without(s, x)) &&
      forall k :: 0 <= k < |s| ==> (k in idx <==> s[k] != x))
  {
    FilterInOrder(s, IsNot(x));
    var idx := Passing(s, IsNot(x));
    assert forall k :: 0 <= k < |s| ==> (k in idx <==> s[k] != x);
    assert PicksAt(idx, s, Without(s, x));
  }

  /** The updater of `handleOptionToggle`. */
  function ToggleOption(kind: QuestionType, prev: seq<string>, option: string): (r: seq<string>)
    ensures kind != Multiselect || option == Ninguna ==> r == [option]
    ensures option in r <==> kind != Multiselect || option == Ninguna || option !in prev
    ensures kind == Multiselect && option != Ninguna && option in prev ==> r == Without(prev, option)
    ensures kind == Multiselect && option != Ninguna && option !in prev ==>
      |r| > 0 && r[|r| - 1] == option && r[..|r| - 1] == Without(prev, Ninguna)
  {
    if kind != Multiselect then [option]
    else if option == Ninguna then [Ninguna]
    else if option in prev then
      WithoutMembership(prev, option, option);
      Without(prev, option)
    else
      Without(prev, Ninguna) + [option]
  }

  /** On a multiselect, toggling an ordinary option flips only that option,
      and the sentinel stays exactly when the option was already selected. */
  lemma ToggleMembership(prev: seq<string>, option: string, o: string)
    requires option != Ninguna && o != option
    ensures o != Ninguna ==> (o in ToggleOption(Multiselect, prev, option) <==> o in prev)
    ensures o == Ninguna ==> (o in ToggleOption(Multiselect, prev, option) <==> o in prev && option in prev)
  {
    if option in prev {
      WithoutMembership(prev, option, o);
    } else {
      WithoutMembership(prev, Ninguna, o);
    }
  }

  predicate NoDuplicates(s: seq<string>)
  {
    forall i, j :: 0 <= i < j < |s| ==> s[i] != s[j]
  }

  /** The sentinel never shares the selection with another option. */
  predicate SentinelAlone(s: seq<string>)
  {
    Ninguna in s ==> s == [Ninguna]
  }

  lemma {:induction false} WithoutNoDuplicates(s: seq<string>, x: string)
    requires NoDuplicates(s)
    ensures NoDuplicates(Without(s, x))
  {
    if s != [] {
      WithoutNoDuplicates(s[1..], x);
      var t := Without(s[1..], x);
      assert s[0] !in s[1..] by {
        forall k | 0 <= k < |s[1..]| ensures s[1..][k] != s[0] {
          assert s[1..][k] == s[k + 1];
        }
      }
      WithoutMembership(s[1..], x, s[0]);
      assert s[0] !in t;
      var r := (if s[0] != x then [s[0]] else []) + t;
      assert Without(s, x) == r;
      forall i, j | 0 <= i < j < |r| ensures r[i] != r[j] {
        if s[0] != x && i == 0 {
          assert r[j] == t[j - 1];
        }
      }
    }
  }

  /** Toggling keeps a selection free of duplicates and keeps the sentinel
      alone. */
  lemma ToggleWellFormed(kind: QuestionType, prev: seq<string>, option: string)
    requires NoDuplicates(prev) && SentinelAlone(prev)
    ensures var r := ToggleOption(kind, prev, option);
      NoDuplicates(r) && SentinelAlone(r)
  {
    var r := ToggleOption(kind, prev, option);
    if kind == Multiselect && option != Ninguna {
      if option in prev {
        WithoutNoDuplicates(prev, option);
        WithoutMembership(prev, option, Ninguna);
      } else {
        var w := Without(prev, Ninguna);
        WithoutNoDuplicates(prev, Ninguna);
        WithoutMembership(prev, Ninguna, option);
        WithoutMembership(prev, Ninguna, Ninguna);
        forall i, j | 0 <= i < j < |r| ensures r[i] != r[j] {
          if j == |w| {
            assert r[i] == w[i];
          } else {
            assert r[i] == w[i] && r[j] == w[j];
          }
        }
        assert Ninguna !in r by {
          forall i | 0 <= i < |r| ensures r[i] != Ninguna {
            if i < |w| {
              assert r[i] == w[i];
            }
          }
        }
      }
    }
  }

  /** Selecting an absent option and deselecting it again restores the
      selection. */
  lemma ToggleTwice(prev: seq<string>, option: string)
    requires option != Ninguna && option !in prev && Ninguna !in prev
    ensures ToggleOption(Multiselect, ToggleOption(Multiselect, prev, option), option) == prev
  {
    FilterKeepsAll(prev, o => o != Ninguna);
    assert ToggleOption(Multiselect, prev, option) == prev + [option];
    FilterConcat(prev, [option], o => o != option);
    FilterKeepsAll(prev, o => o != option);
    assert Filter([option], o => o != option) == [];
  }

  /** "None", the option the health question lists, is an ordinary option:
      selecting it keeps every other selected condition. */
  lemma NoneKeepsOtherConditions(prev: seq<string>, o: string)
    requires "None" !in prev && o in prev && o != Ninguna
    ensures o in ToggleOption(Questions[2].kind, prev, "None")
  {
    ToggleMembership(prev, "None", o);
  }

  /** The default of an unanswered field: '' or []. */
  function Default(f: Field): Answer
  {
    if IsListField(f) then List([]) else Str("")
  }

  /** An answer has the shape its field expects. */
  predicate FitsField(f: Field, a: Answer)
  {
    a.List? <==> IsListField(f)
  }

  /** `answers[f] || default`. */
  function TextAt(answers: map<Field, Answer>, f: Field): string
  {
    if f in answers && answers[f].Str? then answers[f].text else ""
  }

  function ListAt(answers: map<Field, Answer>, f: Field): seq<string>
  {
    if f in answers && answers[f].List? then answers[f].items else []
  }

  /** The final profile built on the last step. */
  function BuildProfile(answers: map<Field, Answer>): (p: UserProfile)
    ensures forall f :: ProfileValue(p, f) == if f in answers && FitsField(f, answers[f]) then answers[f] else Default(f)
  {
    UserProfile(
      TextAt(answers, Name), TextAt(answers, City), ListAt(answers, HealthConditions),
      TextAt(answers, Medications), TextAt(answers, ClimateAffects),
      ListAt(answers, OutdoorActivities), TextAt(answers, ClimateInfluence),
      ListAt(answers, AlertTypes), TextAt(answers, NotificationFrequency),
      TextAt(answers, FavoriteClimate))
  }

  /** The value a profile holds for a field. */
  function ProfileValue(p: UserProfile, f: Field): Answer
  {
    match f
    case Name => Str(p.name)
    case City => Str(p.city)
    case HealthConditions => List(p.healthConditions)
    case Medications => Str(p.medications)
    case ClimateAffects => Str(p.climateAffects)
    case OutdoorActivities => List(p.outdoorActivities)
    case ClimateInfluence => Str(p.climateInfluence)
    case AlertTypes => List(p.alertTypes)
    case NotificationFrequency => Str(p.notificationFrequency)
    case FavoriteClimate => Str(p.favoriteClimate)
  }

  /** The profile holds every answer given, and '' or [] for every field left
      unanswered. */
  lemma BuildProfileComplete(answers: map<Field, Answer>, f: Field)
    requires forall g :: g in answers ==> FitsField(g, answers[g])
    ensures f in answers ==> ProfileValue(BuildProfile(answers), f) == answers[f]
    ensures f !in answers ==> ProfileValue(BuildProfile(answers), f) == Default(f)
  {
  }

  /** The inputs `handlePrevious` leaves for the question it returns to, given
      that question's stored answer. */
  function Restore(kind: QuestionType, previous: Option<Answer>, text: string, selected: seq<string>)
    : (r: (string, seq<string>))
    ensures r.0 == text || (kind == Text && previous == Some(Str(r.0)))
    ensures r.1 == selected || (previous.Some? &&
      (previous.value == List(r.1) || (kind != Text && |r.1| == 1 && previous.value == Str(r.1[0]))))
    ensures r.0 == text || r.1 == selected
    ensures previous.None? ==> r == (text, selected)
    ensures previous.Some? && previous.value.Str? && kind == Text ==> r == (previous.value.text, selected)
    ensures previous.Some? && previous.value.Str? && kind != Text ==> r == (text, [previous.value.text])
    ensures previous.Some? && previous.value.List? ==> r == (text, previous.value.items)
  {
    match previous
    case None => (text, selected)
    case Some(Str(s)) => if kind == Text then (s, selected) else (text, [s])
    case Some(List(items)) => (text, items)
  }

  /** Going back to an answered question puts its answer back into the inputs,
      so Next stores the same answer again; the one exception is a multiselect
      stored empty because of the sentinel, whose restored selection is empty.
      The inputs `t0` and `s0` are whatever the screen held when Previous was
      pressed. */
  lemma RestoreThenNextStoresSame(kind: QuestionType, text: string, selected: seq<string>, t0: string, s0: seq<string>)
    requires StoredValue(kind, text, selected).Some?
    requires StoredValue(kind, text, selected) != Some(List([]))
    ensures var v := StoredValue(kind, text, selected);
      var (t, s) := Restore(kind, v, t0, s0);
      StoredValue(kind, t, s) == v
  {
    if kind == Text {
      TrimIdempotent(text);
    }
  }

  /** A multiselect answered with the sentinel restores an empty selection, on
      which Next is blocked. */
  lemma RestoredSentinelBlocksNext(text: string, selected: seq<string>, t0: string, s0: seq<string>)
    requires Ninguna in selected
    ensures var (t, s) := Restore(Multiselect, StoredValue(Multiselect, text, selected), t0, s0);
      !CanProceed(Multiselect, t, s)
  {
  }

  /** Every stored answer has the shape of its field. */
  predicate AnswersFit(answers: map<Field, Answer>)
  {
    forall f :: f in answers ==> FitsField(f, answers[f])
  }

  /** The state of the survey screen. */
  class SurveyScreen {
    var currentStep: nat
    var answers: map<Field, Answer>
    var textInput: string
    var selectedOptions: seq<string>

    predicate Valid()
      reads this
    {
      currentStep < |Questions| && AnswersFit(answers)
    }

    constructor()
      ensures Valid()
      ensures currentStep == 0 && answers == map[] && textInput == "" && selectedOptions == []
    {
      currentStep := 0;
      answers := map[];
      textInput := "";
      selectedOptions := [];
    }

    /** The input's `onChange`. */
    method SetTextInput(text: string)
      requires Valid()
      modifies this
      ensures Valid()
      ensures textInput == text
      ensures currentStep == old(currentStep) && answers == old(answers)
      ensures selectedOptions == old(selectedOptions)
    {
      textInput := text;
    }

    /** `handleOptionToggle`. */
    method HandleOptionToggle(option: string)
      requires Valid()
      modifies this
      ensures Valid()
      ensures selectedOptions == ToggleOption(Questions[currentStep].kind, old(selectedOptions), option)
      ensures currentStep == old(currentStep) && answers == old(answers) && textInput == old(textInput)
    {
      selectedOptions := ToggleOption(Questions[currentStep].kind, selectedOptions, option);
    }

    /** `handleNext`: when the guard passes, stores the answer, clears the
        inputs and advances; on the last step it instead returns the finished
        profile, which the screen hands to `onComplete`. */
    method HandleNext() returns (completed: Option<UserProfile>)
      requires Valid()
      modifies this
      ensures Valid()
      ensures var q := Questions[old(currentStep)];
        var v := StoredValue(q.kind, old(textInput), old(selectedOptions));
        if v.None? then
          completed.None? && currentStep == old(currentStep) && answers == old(answers) &&
          textInput == old(textInput) && selectedOptions == old(selectedOptions)
        else
          answers == old(answers)[q.field := v.value] && textInput == "" && selectedOptions == [] &&
          (old(currentStep) < |Questions| - 1 ==> currentStep == old(currentStep) + 1 && completed.None?) &&
          (old(currentStep) == |Questions| - 1 ==>
            currentStep == old(currentStep) && completed == Some(BuildProfile(answers)))
    {
      QuestionsTable();
      var q := Questions[currentStep];
      var v := StoredValue(q.kind, textInput, selectedOptions);
      completed := None;
      if v.Some? {
        answers := answers[q.field := v.value];
        textInput := "";
        selectedOptions := [];
        if currentStep < |Questions| - 1 {
          currentStep := currentStep + 1;
        } else {
          completed := Some(BuildProfile(answers));
        }
      }
    }

    /** `handlePrevious`: a no-op on the first question; otherwise steps back
        and puts the earlier question's stored answer into the inputs. */
    method HandlePrevious()
      requires Valid()
      modifies this
      ensures Valid()
      ensures answers == old(answers)
      ensures old(currentStep) == 0 ==>
        currentStep == 0 && textInput == old(textInput) && selectedOptions == old(selectedOptions)
      ensures old(currentStep) > 0 ==>
        var q := Questions[old(currentStep) - 1];
        var previous := if q.field in answers then Some(answers[q.field]) else None;
        currentStep == old(currentStep) - 1 &&
        (textInput, selectedOptions) == Restore(q.kind, previous, old(textInput), old(selectedOptions))
    {
      if currentStep > 0 {
        currentStep := currentStep - 1;
        var q := Questions[currentStep];
        if q.field in answers {
          match answers[q.field]
          case Str(s) =>
            if q.kind == Text {
              textInput := s;
            } else {
              selectedOptions := [s];
            }
          case List(items) =>
            selectedOptions := items;
        }
      }
    }
  }
}
