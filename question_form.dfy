/** The single-question form used to add or edit a live question, and the
    three validation rules it shares with the generator's edit form. */
module QuestionForm {
  import opened Text
  import opened Values

  /** Why a submission is refused; the first failing rule wins. */
  datatype FormError =
    | TextRequired        // "Question text is required"
    | TwoOptionsRequired  // "At least 2 options are required"
    | CorrectOptionEmpty  // "Correct answer option cannot be empty"

  predicate NonBlank(s: string) { Trim(s) != "" }

  /** Which options hold non-blank text. */
  function NonBlankFlags(options: seq<string>): (r: seq<bool>)
    ensures |r| == |options|
    ensures forall k :: 0 <= k < |options| ==> r[k] == NonBlank(options[k])
  {
    seq(|options|, k requires 0 <= k < |options| => NonBlank(options[k]))
  }

  /** How many flags are set. */
  function CountTrue(flags: seq<bool>): (n: nat)
    ensures n <= |flags|
    decreases |flags|
  {
    if flags == [] then 0
    else CountTrue(flags[..|flags| - 1]) + (if flags[|flags| - 1] then 1 else 0)
  }

  /** `options.filter(opt => opt.trim()).length`. */
  function CountNonBlank(options: seq<string>): (n: nat)
    ensures n <= |options|
  {
    CountTrue(NonBlankFlags(options))
  }

  /** At least one flag is set exactly when the count is positive. */
  lemma {:induction false} OneTrueIff(flags: seq<bool>)
    ensures CountTrue(flags) >= 1 <==> exists i :: 0 <= i < |flags| && flags[i]
    decreases |flags|
  {
    if flags != [] {
      var init := flags[..|flags| - 1];
      OneTrueIff(init);
      if CountTrue(init) >= 1 {
        var i :| 0 <= i < |init| && init[i];
        assert flags[i];
      }
      forall i | 0 <= i < |init| && flags[i]
        ensures CountTrue(init) >= 1
      {
        assert init[i];
      }
    }
  }

  /** Two distinct set flags exist exactly when the count is at least two. */
  lemma {:induction false} TwoTrueIff(flags: seq<bool>)
    ensures CountTrue(flags) >= 2 <==> exists i, j :: 0 <= i < j < |flags| && flags[i] && flags[j]
    decreases |flags|
  {
    if flags != [] {
      var init := flags[..|flags| - 1];
      var last := |flags| - 1;
      TwoTrueIff(init);
      OneTrueIff(init);
      if CountTrue(init) >= 2 {
        var i, j :| 0 <= i < j < |init| && init[i] && init[j];
        assert flags[i] && flags[j];
      } else if CountTrue(init) == 1 && flags[last] {
        var i :| 0 <= i < |init| && init[i];
        assert flags[i];
      }
      forall i, j | 0 <= i < j < |flags| && flags[i] && flags[j]
        ensures CountTrue(flags) >= 2
      {
        assert init[i];
        if j < last {
          assert init[j];
        }
      }
    }
  }

  /** At least two options are non-blank exactly when two distinct slots hold
      non-blank text. */
  lemma TwoNonBlankIff(options: seq<string>)
    ensures CountNonBlank(options) >= 2 <==>
            exists i, j :: 0 <= i < j < |options| && NonBlank(options[i]) && NonBlank(options[j])
  {
    var flags := NonBlankFlags(options);
    TwoTrueIff(flags);
    if CountNonBlank(options) >= 2 {
      var i, j :| 0 <= i < j < |flags| && flags[i] && flags[j];
      assert NonBlank(options[i]) && NonBlank(options[j]);
    }
    if exists i, j :: 0 <= i < j < |options| && NonBlank(options[i]) && NonBlank(options[j]) {
      var i, j :| 0 <= i < j < |options| && NonBlank(options[i]) && NonBlank(options[j]);
      assert flags[i] && flags[j];
    }
  }

  /** Some option is non-blank exactly when the count is positive. */
  lemma OneNonBlankIff(options: seq<string>)
    ensures CountNonBlank(options) >= 1 <==> exists i :: 0 <= i < |options| && NonBlank(options[i])
  {
    var flags := NonBlankFlags(options);
    OneTrueIff(flags);
    if CountNonBlank(options) >= 1 {
      var i :| 0 <= i < |flags| && flags[i];
      assert NonBlank(options[i]);
    }
  }

  /** The three rules, in the order the forms apply them: the text is not
      blank, at least two options are not blank, and `options[correctIndex]`
      exists and is not blank. */
  function CheckDraft(questionText: string, options: seq<string>, correctIndex: int): (e: Option<FormError>)
    ensures e.None? <==> NonBlank(questionText) && CountNonBlank(options) >= 2
                         && 0 <= correctIndex < |options| && NonBlank(options[correctIndex])
    ensures e == Some(TextRequired) <==> !NonBlank(questionText)
    ensures e == Some(TwoOptionsRequired) <==> NonBlank(questionText) && CountNonBlank(options) < 2
  {
    if !NonBlank(questionText) then Some(TextRequired)
    else if CountNonBlank(options) < 2 then Some(TwoOptionsRequired)
    else if !(0 <= correctIndex < |options|) || !NonBlank(options[correctIndex]) then Some(CorrectOptionEmpty)
    else None
  }

  /** `options.map(opt => opt.trim())`. */
  function TrimAll(options: seq<string>): (r: seq<string>)
    ensures |r| == |options|
    ensures forall k :: 0 <= k < |options| ==> r[k] == Trim(options[k])
  {
    seq(|options|, k requires 0 <= k < |options| => Trim(options[k]))
  }

  lemma TrimAllIdempotent(options: seq<string>)
    ensures TrimAll(TrimAll(options)) == TrimAll(options)
  {
    forall k | 0 <= k < |options|
      ensures TrimAll(TrimAll(options))[k] == TrimAll(options)[k]
    {
      TrimIdempotent(options[k]);
    }
  }

  lemma TrimKeepsNonBlank(s: string)
    ensures NonBlank(Trim(s)) <==> NonBlank(s)
  {
    TrimIdempotent(s);
  }

  lemma CountNonBlankTrimAll(options: seq<string>)
    ensures CountNonBlank(TrimAll(options)) == CountNonBlank(options)
  {
    forall k | 0 <= k < |options|
      ensures NonBlankFlags(TrimAll(options))[k] == NonBlankFlags(options)[k]
    {
      TrimKeepsNonBlank(options[k]);
    }
    assert NonBlankFlags(TrimAll(options)) == NonBlankFlags(options);
  }

  /** The form's state. */
  datatype Form = Form(questionText: string, options: seq<string>, correctIndex: int,
                       difficulty: string, explanation: string)

  /** The record the form hands to its caller. */
  datatype Saved = Saved(questionText: string, options: seq<string>, correctIndex: int,
                         difficulty: string, explanation: string)

  const BLANK_OPTIONS: seq<string> := ["", "", "", ""]

  /** The state of a new, empty form. */
  function EmptyForm(): Form {
    Form("", BLANK_OPTIONS, 0, "Medium", "")
  }

  /** `v || fallback` for a text field; a value of another type is taken as absent. */
  function TextOr(d: Doc, k: string, fallback: string): string {
    if k in d && d[k].Str? && d[k].s != "" then d[k].s else fallback
  }

  /** The strings of a stored list, when every element is a string. */
  function StringsOf(v: Value): Option<seq<string>> {
    if v.List? && forall k :: 0 <= k < |v.elems| ==> v.elems[k].Str? then
      Some(seq(|v.elems|, k requires 0 <= k < |v.elems| => v.elems[k].s))
    else None
  }

  /** A list stored from strings reads back as those strings. */
  lemma StringsOfStrList(xs: seq<string>)
    ensures StringsOf(StrList(xs)) == Some(xs)
  {
    var v := StrList(xs);
    assert seq(|v.elems|, k requires 0 <= k < |v.elems| => v.elems[k].s) == xs;
  }

  /** `question.options || ['', '', '', '']`; an empty list is truthy and kept. */
  function OptionsOr(d: Doc, fallback: seq<string>): seq<string> {
    if "options" in d && StringsOf(d["options"]).Some? then StringsOf(d["options"]).value else fallback
  }

  /** `question.correctIndex || 0`. */
  function IndexOr0(d: Doc): int {
    if "correctIndex" in d && d["correctIndex"].Num? then d["correctIndex"].n else 0
  }

  /** The state after the form is opened: an existing question's fields, each
      falling back to the empty form's value when missing or falsy. */
  function LoadForm(question: Option<Doc>): (f: Form)
    ensures question.None? ==> f == EmptyForm()
    ensures question.Some? ==> var q := question.value;
      && (if "questionText" in q && q["questionText"].Str? then f.questionText == q["questionText"].s
          else f.questionText == "")
      && (if "explanation" in q && q["explanation"].Str? then f.explanation == q["explanation"].s
          else f.explanation == "")
      && (if "difficulty" in q && q["difficulty"].Str? && q["difficulty"].s != "" then f.difficulty == q["difficulty"].s
          else f.difficulty == "Medium")
      && (if "correctIndex" in q && q["correctIndex"].Num? then f.correctIndex == q["correctIndex"].n
          else f.correctIndex == 0)
    ensures question.Some? ==> var q := question.value;
      if "options" in q && q["options"].List? && forall k :: 0 <= k < |q["options"].elems| ==> q["options"].elems[k].Str?
      then |f.options| == |q["options"].elems| && forall k :: 0 <= k < |f.options| ==> f.options[k] == q["options"].elems[k].s
      else f.options == BLANK_OPTIONS
  {
    match question
    case None => EmptyForm()
    case Some(q) =>
      Form(TextOr(q, "questionText", ""), OptionsOr(q, BLANK_OPTIONS), IndexOr0(q),
           TextOr(q, "difficulty", "Medium"), TextOr(q, "explanation", ""))
  }

  /** Opening the form on a question without those fields gives the empty form,
      and a stored question's own fields are taken over. */
  lemma LoadFormDefaults(q: Doc)
    ensures (forall k :: k in q ==> !Truthy(q[k])) ==> LoadForm(Some(q)) == EmptyForm()
    ensures LoadForm(None) == EmptyForm()
    ensures "questionText" in q && q["questionText"] == Str("Q") ==> LoadForm(Some(q)).questionText == "Q"
    ensures "difficulty" in q && q["difficulty"] == Str("Hard") ==> LoadForm(Some(q)).difficulty == "Hard"
    ensures "options" in q && q["options"] == List([]) ==> LoadForm(Some(q)).options == []
  {
    if "options" in q {
      assert StringsOf(q["options"]).Some? ==> Truthy(q["options"]);
    }
  }

  /** `handleSubmit`: refuse with the first failing rule, otherwise hand back
      the form with text, every option and the explanation trimmed. */
  function Submit(f: Form): (r: Result<Saved, FormError>)
    ensures r.Ok? <==> CheckDraft(f.questionText, f.options, f.correctIndex).None?
    ensures r.Err? ==> Some(r.error) == CheckDraft(f.questionText, f.options, f.correctIndex)
    ensures r.Ok? ==> && r.value.questionText == Trim(f.questionText)
                      && |r.value.options| == |f.options|
                      && (forall k :: 0 <= k < |f.options| ==> r.value.options[k] == Trim(f.options[k]))
                      && r.value.correctIndex == f.correctIndex
                      && r.value.difficulty == f.difficulty
                      && r.value.explanation == Trim(f.explanation)
  {
    match CheckDraft(f.questionText, f.options, f.correctIndex)
    case Some(e) => Err(e)
    case None => Ok(Saved(Trim(f.questionText), TrimAll(f.options), f.correctIndex, f.difficulty, Trim(f.explanation)))
  }

  /** The rules accept the trimmed fields of every draft they accept. */
  lemma CheckDraftOfTrimmed(questionText: string, options: seq<string>, correctIndex: int)
    requires CheckDraft(questionText, options, correctIndex).None?
    ensures CheckDraft(Trim(questionText), TrimAll(options), correctIndex).None?
  {
    TrimKeepsNonBlank(questionText);
    TrimKeepsNonBlank(options[correctIndex]);
    CountNonBlankTrimAll(options);
  }

  /** Reopening a saved record and submitting it again gives back the same record. */
  lemma ResubmitIsStable(f: Form)
    requires Submit(f).Ok?
    ensures var s := Submit(f).value;
            Submit(Form(s.questionText, s.options, s.correctIndex, s.difficulty, s.explanation)) == Ok(s)
  {
    var s := Submit(f).value;
    TrimKeepsNonBlank(f.questionText);
    TrimKeepsNonBlank(f.options[f.correctIndex]);
    CountNonBlankTrimAll(f.options);
    TrimIdempotent(f.questionText);
    TrimIdempotent(f.explanation);
    TrimAllIdempotent(f.options);
  }

  /** Every accepted record has a non-blank text and a non-blank correct option. */
  lemma SavedIsValid(f: Form)
    requires Submit(f).Ok?
    ensures var s := Submit(f).value;
            NonBlank(s.questionText) && 0 <= s.correctIndex < |s.options| && NonBlank(s.options[s.correctIndex])
            && CountNonBlank(s.options) >= 2
  {
    TrimKeepsNonBlank(f.questionText);
    TrimKeepsNonBlank(f.options[f.correctIndex]);
    CountNonBlankTrimAll(f.options);
  }
}
