/** Bulk upload of questions from a spreadsheet: each already-parsed row is
    validated rule by rule (the first failing rule names the row's error), an
    accepted row is written to the live collection, and the upload reports how
    many rows succeeded and failed together with the first ten error messages. */
module BulkUpload {
  import opened Text
  import opened Values
  import opened Store
  import opened Lists

  /** A spreadsheet cell as the CSV and Excel readers deliver it; an empty cell
      is either an empty text or absent from the row. */
  datatype Cell = Text(s: string) | Number(n: int) | Boolean(b: bool)

  /** A row: column header to cell. */
  type Row = map<string, Cell>

  predicate CellTruthy(c: Cell) {
    match c
    case Text(s) => s != ""
    case Number(n) => n != 0
    case Boolean(b) => b
  }

  /** `row[k1] || row[k2] || ...` with the fallback left to the caller: the
      first truthy cell among the columns. */
  function FirstTruthy(row: Row, columns: seq<string>): (r: Option<Cell>)
    ensures r.Some? ==> CellTruthy(r.value)
    ensures r.None? <==> forall k :: 0 <= k < |columns| ==> !(columns[k] in row && CellTruthy(row[columns[k]]))
    decreases |columns|
  {
    if columns == [] then None
    else if columns[0] in row && CellTruthy(row[columns[0]]) then Some(row[columns[0]])
    else FirstTruthy(row, columns[1..])
  }

  /** The cell read is the one of the first truthy column: columns before it
      are absent or falsy. */
  lemma {:induction false} FirstTruthyAt(row: Row, columns: seq<string>, k: nat)
    requires k < |columns| && columns[k] in row && CellTruthy(row[columns[k]])
    requires forall j :: 0 <= j < k ==> !(columns[j] in row && CellTruthy(row[columns[j]]))
    ensures FirstTruthy(row, columns) == Some(row[columns[k]])
    decreases k
  {
    if k > 0 {
      assert !(columns[0] in row && CellTruthy(row[columns[0]]));
      FirstTruthyAt(row, columns[1..], k - 1);
    }
  }

  /** `row[k1] ?? row[k2] ?? ...`: the first cell present among the columns. */
  function FirstPresent(row: Row, columns: seq<string>): (r: Option<Cell>)
    ensures r.None? <==> forall k :: 0 <= k < |columns| ==> columns[k] !in row
    decreases |columns|
  {
    if columns == [] then None
    else if columns[0] in row then Some(row[columns[0]])
    else FirstPresent(row, columns[1..])
  }

  /** The cell read is the one of the first present column. */
  lemma {:induction false} FirstPresentAt(row: Row, columns: seq<string>, k: nat)
    requires k < |columns| && columns[k] in row
    requires forall j :: 0 <= j < k ==> columns[j] !in row
    ensures FirstPresent(row, columns) == Some(row[columns[k]])
    decreases k
  {
    if k > 0 {
      assert columns[0] !in row;
      FirstPresentAt(row, columns[1..], k - 1);
    }
  }

  /** `String(cell)`. */
  function CellString(c: Cell): string {
    match c
    case Text(s) => s
    case Number(n) => IntToString(n)
    case Boolean(b) => if b then "true" else "false"
  }

  // ---------------------------------------------------------------------------
  // The rules, in the order they run

  const TEXT_COLUMNS: seq<string> := ["questionText", "Question Text", "question"]
  const OPTION_COLUMNS: seq<seq<string>> :=
    [["option1", "Option 1", "option_1"], ["option2", "Option 2", "option_2"],
     ["option3", "Option 3", "option_3"], ["option4", "Option 4", "option_4"]]
  const INDEX_COLUMNS: seq<string> := ["correctIndex", "Correct Index", "correct_index", "Correct Answer"]
  const LEVEL_COLUMNS: seq<string> := ["level", "Level"]
  const USER_TYPE_COLUMNS: seq<string> := ["usertype", "Usertype", "User Type"]
  const EXPLANATION_COLUMNS: seq<string> := ["explanation", "Explanation"]
  const VALID_USER_TYPES: seq<string> := ["practitioner", "patient", "youth"]

  /** Why a row is refused. */
  datatype RowError =
    | MissingText                 // blank or missing question text
    | TextNotString               // a number or boolean question text: `.trim` is not a function
    | TooFewOptions
    | BadIndex
    | BadLevel
    | BadUserType(shown: string)  // the user-type cell as written
    | ExplanationNotString        // a number or boolean explanation: `.trim` is not a function
    | StoreFailed(message: string)

  /** The message reported for row `i` (0-based; the sheet's header is line 1). */
  function RowMessage(i: nat, e: RowError): string {
    "Row " + IntToString(i + 2) + ": " +
    match e
    case MissingText => "Missing question text"
    case TextNotString => "questionText.trim is not a function"
    case TooFewOptions => "Need at least 2 options"
    case BadIndex => "Invalid correct index"
    case BadLevel => "Invalid level (must be 1, 2, 3, or 4)"
    case BadUserType(shown) =>
      "Invalid user type \"" + shown + "\" (must be one or more of: practitioner, patient, youth)"
    case ExplanationNotString => "explanation.trim is not a function"
    case StoreFailed(message) => message
  }

  /** The trimmed question text, or why there is none. */
  function QuestionTextOf(row: Row): (r: Result<string, RowError>)
    ensures r.Ok? ==> r.value != "" && Trim(r.value) == r.value
    ensures r.Err? ==> r.error == MissingText || r.error == TextNotString
    ensures FirstTruthy(row, TEXT_COLUMNS).None? ==> r == Err(MissingText)
    ensures FirstTruthy(row, TEXT_COLUMNS).Some? && !FirstTruthy(row, TEXT_COLUMNS).value.Text? ==> r == Err(TextNotString)
    ensures FirstTruthy(row, TEXT_COLUMNS).Some? && FirstTruthy(row, TEXT_COLUMNS).value.Text? ==>
              var t := FirstTruthy(row, TEXT_COLUMNS).value.s;
              r == if Trim(t) == "" then Err(MissingText) else Ok(Trim(t))
  {
    match FirstTruthy(row, TEXT_COLUMNS)
    case None => Err(MissingText)
    case Some(c) =>
      if !c.Text? then Err(TextNotString)
      else if Trim(c.s) == "" then Err(MissingText)
      else
        TrimIdempotent(c.s);
        Ok(Trim(c.s))
  }

  /** One option column group: `String(opt || '').trim()`. */
  function OptionText(row: Row, columns: seq<string>): (r: string)
    ensures FirstTruthy(row, columns).None? ==> r == ""
    ensures FirstTruthy(row, columns).Some? ==> r == Trim(CellString(FirstTruthy(row, columns).value))
  {
    match FirstTruthy(row, columns)
    case None => ""
    case Some(c) => Trim(CellString(c))
  }

  /** The four option columns, trimmed, with the empty ones dropped. */
  function RowOptions(row: Row): (r: seq<string>)
    ensures |r| <= 4
    ensures "" !in r
  {
    Without(seq(4, j requires 0 <= j < 4 => OptionText(row, OPTION_COLUMNS[j])), "")
  }

  /** The correct index as stored and as compared. */
  datatype IndexValue = IndexValue(stored: Value, numeric: int)

  /** The correct-index cell read as a number: a text is trimmed and parsed
      (empty text is NaN), a number is taken as it is, a boolean compares as 0
      or 1 and is stored as it is; `None` is NaN, including a missing cell. */
  function IndexOf(cell: Option<Cell>): (r: Option<IndexValue>)
    ensures cell.None? ==> r.None?
    ensures cell.Some? && cell.value.Text? && Trim(cell.value.s) == "" ==> r.None?
    ensures cell.Some? && cell.value.Text? && Trim(cell.value.s) != "" ==>
              r == match ParseInt(Trim(cell.value.s)) case Some(k) => Some(IndexValue(Num(k), k)) case None => None
    ensures cell.Some? && cell.value.Number? ==> r == Some(IndexValue(Num(cell.value.n), cell.value.n))
    ensures cell.Some? && cell.value.Boolean? ==> r.Some? && r.value.stored == Bool(cell.value.b)
                                                  && r.value.numeric == (if cell.value.b then 1 else 0)
    ensures r.Some? && !(cell.Some? && cell.value.Boolean?) ==> r.value.stored == Num(r.value.numeric)
  {
    match cell
    case None => None
    case Some(Text(s)) =>
      if Trim(s) == "" then None
      else (match ParseInt(Trim(s)) case Some(k) => Some(IndexValue(Num(k), k)) case None => None)
    case Some(Number(n)) => Some(IndexValue(Num(n), n))
    case Some(Boolean(b)) => Some(IndexValue(Bool(b), if b then 1 else 0))
  }

  /** The level: 1 when every level cell is falsy, a text parsed with
      `parseInt`, a number as it is; `None` is NaN. */
  function LevelOf(row: Row): (r: Option<int>)
    ensures FirstTruthy(row, LEVEL_COLUMNS).Some? ==>
              var c := FirstTruthy(row, LEVEL_COLUMNS).value;
              r == match c case Text(s) => ParseInt(s) case Number(n) => Some(n) case Boolean(b) => Some(if b then 1 else 0)
    ensures (forall k :: 0 <= k < |LEVEL_COLUMNS| ==> !(LEVEL_COLUMNS[k] in row && CellTruthy(row[LEVEL_COLUMNS[k]])))
            ==> r == Some(1)
    ensures "level" in row && row["level"].Number? && row["level"].n != 0 ==> r == Some(row["level"].n)
    ensures "level" in row && row["level"].Text? && row["level"].s != "" ==> r == ParseInt(row["level"].s)
  {
    match FirstTruthy(row, LEVEL_COLUMNS)
    case None => Some(1)
    case Some(Text(s)) => ParseInt(s)
    case Some(Number(n)) => Some(n)
    case Some(Boolean(b)) => Some(if b then 1 else 0)
  }

  /** The user-type cell, `'practitioner'` when every user-type cell is falsy. */
  function UserTypeCell(row: Row): Cell {
    match FirstTruthy(row, USER_TYPE_COLUMNS)
    case None => Text("practitioner")
    case Some(c) => c
  }

  /** A text is split on commas, each piece trimmed and lower-cased, the
      empty pieces dropped; any other cell is one lower-cased entry. */
  function UserTypeEntries(c: Cell): (r: seq<string>)
    ensures c.Text? ==> "" !in r
    ensures c.Text? ==> forall k :: 0 <= k < |r| ==> r[k] in CleanEntries(Split(c.s))
    ensures c.Text? ==> forall k :: 0 <= k < |Split(c.s)| && Lower(Trim(Split(c.s)[k])) != "" ==>
                          Lower(Trim(Split(c.s)[k])) in r
    ensures !c.Text? ==> r == [Lower(CellString(c))]
  {
    match c
    case Text(s) => Without(CleanEntries(Split(s)), "")
    case _ => [Lower(CellString(c))]
  }

  /** Each comma-separated piece trimmed and lower-cased. */
  function CleanEntries(parts: seq<string>): (r: seq<string>)
    ensures |r| == |parts|
    ensures forall k :: 0 <= k < |parts| ==> r[k] == Lower(Trim(parts[k]))
  {
    seq(|parts|, k requires 0 <= k < |parts| => Lower(Trim(parts[k])))
  }

  /** The entries that name a user type, in order and with repeats. */
  function KeepValid(entries: seq<string>): (r: seq<string>)
    ensures |r| <= |entries|
    ensures forall k :: 0 <= k < |r| ==> r[k] in VALID_USER_TYPES && r[k] in entries
    ensures forall k :: 0 <= k < |entries| && entries[k] in VALID_USER_TYPES ==> entries[k] in r
    decreases |entries|
  {
    if entries == [] then []
    else KeepValid(entries[..|entries| - 1])
         + (if entries[|entries| - 1] in VALID_USER_TYPES then [entries[|entries| - 1]] else [])
  }

  /** Keeping the valid entries distributes over concatenation, so the kept
      entries stay in their order, repeats included. */
  lemma {:induction false} KeepValidConcat(xs: seq<string>, ys: seq<string>)
    ensures KeepValid(xs + ys) == KeepValid(xs) + KeepValid(ys)
    decreases |ys|
  {
    if ys == [] {
      assert xs + ys == xs;
    } else {
      var init := ys[..|ys| - 1];
      assert (xs + ys)[..|xs + ys| - 1] == xs + init;
      KeepValidConcat(xs, init);
    }
  }

  /** One entry is kept exactly when it names a user type. */
  lemma KeepValidSingle(e: string)
    ensures KeepValid([e]) == if e in VALID_USER_TYPES then [e] else []
  {
    assert [e][..0] == [];
  }

  /** Dropping the empty pieces first changes nothing: an empty entry names no
      user type. */
  lemma {:induction false} KeepValidIgnoresEmpty(xs: seq<string>)
    ensures KeepValid(Without(xs, "")) == KeepValid(xs)
    decreases |xs|
  {
    if xs != [] {
      var init := xs[..|xs| - 1];
      var last := xs[|xs| - 1];
      assert xs == init + [last];
      assert KeepValid(Without([last], "")) == KeepValid([last]) by {
        WithoutSingle(last, "");
        KeepValidSingle(last);
        assert "" !in VALID_USER_TYPES;
      }
      calc {
        KeepValid(Without(xs, ""));
        { WithoutConcat(init, [last], ""); }
        KeepValid(Without(init, "") + Without([last], ""));
        { KeepValidConcat(Without(init, ""), Without([last], "")); }
        KeepValid(Without(init, "")) + KeepValid(Without([last], ""));
        { KeepValidIgnoresEmpty(init); }
        KeepValid(init) + KeepValid([last]);
        { KeepValidConcat(init, [last]); }
        KeepValid(xs);
      }
    }
  }

  /** A user-type text keeps, in order and with repeats, exactly its
      comma-separated pieces that name a user type once trimmed and
      lower-cased. */
  lemma UserTypesOfText(s: string)
    ensures KeepValid(UserTypeEntries(Text(s))) == KeepValid(CleanEntries(Split(s)))
  {
    KeepValidIgnoresEmpty(CleanEntries(Split(s)));
  }

  /** The trimmed explanation, `''` when every explanation cell is falsy. */
  function ExplanationOf(row: Row): (r: Result<string, RowError>)
    ensures FirstTruthy(row, EXPLANATION_COLUMNS).None? ==> r == Ok("")
    ensures FirstTruthy(row, EXPLANATION_COLUMNS).Some? && FirstTruthy(row, EXPLANATION_COLUMNS).value.Text? ==>
              r == Ok(Trim(FirstTruthy(row, EXPLANATION_COLUMNS).value.s))
    ensures FirstTruthy(row, EXPLANATION_COLUMNS).Some? && !FirstTruthy(row, EXPLANATION_COLUMNS).value.Text? ==>
              r == Err(ExplanationNotString)
    ensures r.Ok? ==> Trim(r.value) == r.value
    ensures r.Err? ==> r.error == ExplanationNotString
  {
    match FirstTruthy(row, EXPLANATION_COLUMNS)
    case None => Ok("")
    case Some(Text(s)) => TrimIdempotent(s); Ok(Trim(s))
    case Some(_) => Err(ExplanationNotString)
  }

  /** The fields of an accepted row. */
  datatype Upload = Upload(text: string, options: seq<string>, index: IndexValue, level: int,
                           userTypes: seq<string>, explanation: string)

  /** The whole pipeline for one row: its fields, or the first rule that
      refuses it. */
  function ValidateRow(row: Row): (r: Result<Upload, RowError>)
    ensures r.Ok? ==> WellFormed(r.value)
    ensures r.Ok? <==>
      && QuestionTextOf(row).Ok?
      && |RowOptions(row)| >= 2
      && IndexOf(FirstPresent(row, INDEX_COLUMNS)).Some?
      && 0 <= IndexOf(FirstPresent(row, INDEX_COLUMNS)).value.numeric < |RowOptions(row)|
      && LevelOf(row).Some? && 1 <= LevelOf(row).value <= 4
      && |KeepValid(UserTypeEntries(UserTypeCell(row)))| > 0
      && ExplanationOf(row).Ok?
    ensures r.Ok? ==>
      && r.value.text == QuestionTextOf(row).value
      && r.value.options == RowOptions(row)
      && r.value.index == IndexOf(FirstPresent(row, INDEX_COLUMNS)).value
      && r.value.level == LevelOf(row).value
      && r.value.userTypes == KeepValid(UserTypeEntries(UserTypeCell(row)))
      && r.value.explanation == ExplanationOf(row).value
  {
    match QuestionTextOf(row)
    case Err(e) => Err(e)
    case Ok(text) =>
      var options := RowOptions(row);
      if |options| < 2 then Err(TooFewOptions)
      else
        match IndexOf(FirstPresent(row, INDEX_COLUMNS))
        case None => Err(BadIndex)
        case Some(index) =>
          if index.numeric < 0 || index.numeric >= |options| then Err(BadIndex)
          else
            match LevelOf(row)
            case None => Err(BadLevel)
            case Some(level) =>
              if level < 1 || level > 4 then Err(BadLevel)
              else
                var cell := UserTypeCell(row);
                var userTypes := KeepValid(UserTypeEntries(cell));
                if |userTypes| == 0 then Err(BadUserType(CellString(cell)))
                else
                  match ExplanationOf(row)
                  case Err(e) => Err(e)
                  case Ok(explanation) => Ok(Upload(text, options, index, level, userTypes, explanation))
  }

  /** The two `new Date()` reads made while writing one row. */
  datatype ClockReads = ClockReads(createdAt: int, updatedAt: int)

  /** The document an accepted row writes. */
  function RowRecord(u: Upload, clock: ClockReads): (d: Doc)
    ensures d.Keys == {"questionText", "options", "correctIndex", "level", "usertype", "explanation",
                       "createdAt", "updatedAt"}
    ensures d["createdAt"] == Time(clock.createdAt) && d["updatedAt"] == Time(clock.updatedAt)
    ensures d["questionText"] == Str(u.text) && d["explanation"] == Str(u.explanation)
    ensures d["options"] == StrList(u.options) && d["usertype"] == StrList(u.userTypes)
    ensures d["correctIndex"] == u.index.stored && d["level"] == Num(u.level)
  {
    map["questionText" := Str(u.text), "options" := StrList(u.options), "correctIndex" := u.index.stored,
        "level" := Num(u.level), "usertype" := StrList(u.userTypes), "explanation" := Str(u.explanation),
        "createdAt" := Time(clock.createdAt), "updatedAt" := Time(clock.updatedAt)]
  }

  /** A non-blank trimmed text, two to four non-empty options, an answer
      index inside them, a level from 1 to 4 and at least one user type, each
      a valid one. */
  predicate WellFormed(u: Upload) {
    && u.text != "" && Trim(u.text) == u.text
    && 2 <= |u.options| <= 4 && "" !in u.options
    && 0 <= u.index.numeric < |u.options|
    && 1 <= u.level <= 4
    && |u.userTypes| > 0 && (forall k :: 0 <= k < |u.userTypes| ==> u.userTypes[k] in VALID_USER_TYPES)
  }

  /** The rules run in order and the first failure wins: a row whose text is
      missing or blank is refused for that, whatever its other cells hold. */
  lemma FirstFailureWins(row: Row)
    ensures QuestionTextOf(row).Err? ==> ValidateRow(row) == Err(QuestionTextOf(row).error)
    ensures QuestionTextOf(row).Ok? && |RowOptions(row)| < 2 ==> ValidateRow(row) == Err(TooFewOptions)
    ensures (forall k :: 0 <= k < |TEXT_COLUMNS| ==> TEXT_COLUMNS[k] !in row) ==> ValidateRow(row) == Err(MissingText)
    ensures QuestionTextOf(row).Ok? && |RowOptions(row)| >= 2
            && (IndexOf(FirstPresent(row, INDEX_COLUMNS)).None?
                || !(0 <= IndexOf(FirstPresent(row, INDEX_COLUMNS)).value.numeric < |RowOptions(row)|))
            ==> ValidateRow(row) == Err(BadIndex)
  {
  }

  /** The later rules, in order: the level, then the user types, then the
      explanation. */
  lemma LaterFailuresWin(row: Row)
    requires ValidateRow(row).Err? && QuestionTextOf(row).Ok? && |RowOptions(row)| >= 2
    requires IndexOf(FirstPresent(row, INDEX_COLUMNS)).Some?
    requires 0 <= IndexOf(FirstPresent(row, INDEX_COLUMNS)).value.numeric < |RowOptions(row)|
    ensures LevelOf(row).None? || !(1 <= LevelOf(row).value <= 4) ==> ValidateRow(row) == Err(BadLevel)
    ensures LevelOf(row).Some? && 1 <= LevelOf(row).value <= 4 && |KeepValid(UserTypeEntries(UserTypeCell(row)))| == 0
            ==> ValidateRow(row) == Err(BadUserType(CellString(UserTypeCell(row))))
    ensures LevelOf(row).Some? && 1 <= LevelOf(row).value <= 4 && |KeepValid(UserTypeEntries(UserTypeCell(row)))| > 0
            ==> ExplanationOf(row).Err? && ValidateRow(row) == Err(ExplanationNotString)
  {
  }

  /** A row whose four first option columns hold texts, the other spellings
      of those columns being absent, offers those texts trimmed, in column
      order, with the empty ones dropped. */
  lemma RowOptionsOfTexts(row: Row, ts: seq<string>)
    requires |ts| == 4
    requires forall j :: 0 <= j < 4 ==> OPTION_COLUMNS[j][0] in row && row[OPTION_COLUMNS[j][0]] == Text(ts[j])
                                        && OPTION_COLUMNS[j][1] !in row && OPTION_COLUMNS[j][2] !in row
    ensures RowOptions(row) == Without(seq(4, j requires 0 <= j < 4 => Trim(ts[j])), "")
  {
    var slots := seq(4, j requires 0 <= j < 4 => OptionText(row, OPTION_COLUMNS[j]));
    forall j | 0 <= j < 4 ensures slots[j] == Trim(ts[j]) {
      OptionTextOfText(row, OPTION_COLUMNS[j], ts[j]);
    }
    assert slots == seq(4, j requires 0 <= j < 4 => Trim(ts[j]));
  }

  /** For any row: the options are the four column groups' first truthy cells
      (whatever their spelling and type) converted with `String` and trimmed,
      in column order, with the empty ones dropped. */
  lemma RowOptionsOfCells(row: Row, cs: seq<Option<Cell>>)
    requires |cs| == 4 && forall j :: 0 <= j < 4 ==> FirstTruthy(row, OPTION_COLUMNS[j]) == cs[j]
    ensures RowOptions(row)
            == Without(seq(4, j requires 0 <= j < 4 => if cs[j].None? then "" else Trim(CellString(cs[j].value))), "")
  {
    var slots := seq(4, j requires 0 <= j < 4 => OptionText(row, OPTION_COLUMNS[j]));
    assert slots == seq(4, j requires 0 <= j < 4 => if cs[j].None? then "" else Trim(CellString(cs[j].value)));
  }

  /** One option column group whose first spelling holds a text, the others
      being absent, offers that text trimmed. */
  lemma OptionTextOfText(row: Row, cols: seq<string>, t: string)
    requires |cols| == 3 && cols[0] in row && row[cols[0]] == Text(t) && cols[1] !in row && cols[2] !in row
    ensures OptionText(row, cols) == Trim(t)
  {
    if t == "" {
      assert !CellTruthy(row[cols[0]]);
      assert forall k :: 0 <= k < |cols| ==> !(cols[k] in row && CellTruthy(row[cols[k]])) by {
        forall k | 0 <= k < |cols| ensures !(cols[k] in row && CellTruthy(row[cols[k]])) {
          assert k == 0 || k == 1 || k == 2;
        }
      }
      assert |Trim(t)| == 0 by { TrimIsInfix(t); }
    } else {
      assert FirstTruthy(row, cols) == Some(Text(t));
    }
  }

  // ---------------------------------------------------------------------------
  // What a spreadsheet exported from valid values reads back as

  /** An answer index written as decimal text reads back as that number. */
  lemma IndexOfRendered(k: int)
    ensures IndexOf(Some(Text(IntToString(k)))) == Some(IndexValue(Num(k), k))
  {
    TrimOfRendered(k);
    ParseIntOfIntToString(k);
  }

  /** A level written as decimal text reads back as that number. */
  lemma LevelOfRendered(row: Row, l: int)
    requires "level" in row && row["level"] == Text(IntToString(l))
    ensures LevelOf(row) == Some(l)
  {
    ParseIntOfIntToString(l);
    assert FirstTruthy(row, LEVEL_COLUMNS) == Some(row["level"]);
  }

  predicate LowerLetters(s: string) {
    forall k :: 0 <= k < |s| ==> 'a' <= s[k] <= 'z'
  }

  /** A word of lower-case letters survives trimming and lower-casing and
      holds no comma. */
  lemma PlainWord(s: string)
    requires s != [] && LowerLetters(s)
    ensures ',' !in s && Trim(s) == s && Lower(s) == s
  {
    TrimStartNoLeadingSpace(s);
    TrimEndNoTrailingSpace(s);
    assert Lower(s) == s;
  }

  lemma ValidUserTypeIsPlain(t: string)
    requires t in VALID_USER_TYPES
    ensures ',' !in t && t != "" && Trim(t) == t && Lower(t) == t
  {
    if t == "practitioner" {
      assert LowerLetters("practitioner");
    } else if t == "patient" {
      assert LowerLetters("patient");
    } else {
      assert LowerLetters("youth");
    }
    PlainWord(t);
  }

  /** Valid user types joined with commas read back as exactly those types,
      in order. */
  lemma UserTypesOfJoined(types: seq<string>)
    requires |types| >= 1 && forall k :: 0 <= k < |types| ==> types[k] in VALID_USER_TYPES
    ensures KeepValid(UserTypeEntries(Text(Join(types)))) == types
  {
    ValidTypesArePlain(types);
    SplitJoin(types);
    WithoutAbsent(types, "");
    KeepValidKeepsValid(types);
  }

  lemma ValidTypesArePlain(types: seq<string>)
    requires forall k :: 0 <= k < |types| ==> types[k] in VALID_USER_TYPES
    ensures forall k :: 0 <= k < |types| ==> ',' !in types[k]
    ensures "" !in types && CleanEntries(types) == types
  {
    forall k | 0 <= k < |types| ensures ',' !in types[k] && types[k] != "" && CleanEntries(types)[k] == types[k] {
      ValidUserTypeIsPlain(types[k]);
    }
  }

  lemma {:induction false} KeepValidKeepsValid(entries: seq<string>)
    requires forall k :: 0 <= k < |entries| ==> entries[k] in VALID_USER_TYPES
    ensures KeepValid(entries) == entries
    decreases |entries|
  {
    if entries != [] {
      KeepValidKeepsValid(entries[..|entries| - 1]);
      assert entries[..|entries| - 1] + [entries[|entries| - 1]] == entries;
    }
  }

  // ---------------------------------------------------------------------------
  // The upload loop

  /** What the upload reports. */
  datatype UploadResults = UploadResults(success: nat, error: nat, total: nat, errors: seq<string>)

  /** Row `i`'s final outcome: the document to write, stamped with the clock
      as read for that row, or the message of its first failing rule, or the
      store's refusal of the write. */
  function RowOutcome(i: nat, row: Row, clock: ClockReads, storeFailures: map<nat, string>): (r: Result<Doc, string>)
    ensures r.Ok? <==> ValidateRow(row).Ok? && i !in storeFailures
    ensures r.Ok? ==> r.value == RowRecord(ValidateRow(row).value, clock)
    ensures ValidateRow(row).Err? ==> r == Err(RowMessage(i, ValidateRow(row).error))
  {
    match ValidateRow(row)
    case Err(e) => Err(RowMessage(i, e))
    case Ok(u) => if i in storeFailures then Err(RowMessage(i, StoreFailed(storeFailures[i]))) else Ok(RowRecord(u, clock))
  }

  /** The outcomes of an upload, given the clock reads of each row's write. */
  function Outcomes(rows: seq<Row>, clock: seq<ClockReads>, storeFailures: map<nat, string>): (os: seq<Result<Doc, string>>)
    requires |clock| == |rows|
    ensures |os| == |rows|
    ensures forall k :: 0 <= k < |rows| ==> os[k] == RowOutcome(k, rows[k], clock[k], storeFailures)
  {
    seq(|rows|, k requires 0 <= k < |rows| => RowOutcome(k, rows[k], clock[k], storeFailures))
  }

  /** A clock that never goes back, read twice per row, row after row. */
  predicate Ticking(clock: seq<ClockReads>) {
    && (forall k :: 0 <= k < |clock| ==> clock[k].createdAt <= clock[k].updatedAt)
    && (forall j, k :: 0 <= j < k < |clock| ==> clock[j].updatedAt <= clock[k].createdAt)
  }

  /** Rows are written one after another, so on a clock that never goes back a
      later accepted row is stamped no earlier than an earlier one, and each
      row's `updatedAt` is no earlier than its `createdAt`. */
  lemma LaterRowsStampedLater(rows: seq<Row>, clock: seq<ClockReads>, storeFailures: map<nat, string>, j: nat, k: nat)
    requires |clock| == |rows| && Ticking(clock)
    requires j < k < |rows|
    requires Outcomes(rows, clock, storeFailures)[j].Ok? && Outcomes(rows, clock, storeFailures)[k].Ok?
    ensures var os := Outcomes(rows, clock, storeFailures);
            && os[j].value["createdAt"].Time? && os[j].value["updatedAt"].Time? && os[k].value["createdAt"].Time?
            && os[j].value["createdAt"].ms <= os[j].value["updatedAt"].ms <= os[k].value["createdAt"].ms
  {
  }

  /** How many outcomes are writes. */
  function Successes(os: seq<Result<Doc, string>>): nat
    decreases |os|
  {
    if os == [] then 0 else Successes(os[..|os| - 1]) + (if os[|os| - 1].Ok? then 1 else 0)
  }

  /** The messages of the refused rows, in row order. */
  function Messages(os: seq<Result<Doc, string>>): (ms: seq<string>)
    ensures |ms| <= |os|
    ensures forall k :: 0 <= k < |os| && os[k].Err? ==> os[k].error in ms
    decreases |os|
  {
    if os == [] then []
    else
      var init := os[..|os| - 1];
      var ms := Messages(init) + (if os[|os| - 1].Ok? then [] else [os[|os| - 1].error]);
      assert forall k :: 0 <= k < |init| ==> os[k] == init[k];
      ms
  }

  /** The messages of two runs of rows are the first run's followed by the
      second's: the order of the rows is kept. */
  lemma {:induction false} MessagesConcat(xs: seq<Result<Doc, string>>, ys: seq<Result<Doc, string>>)
    ensures Messages(xs + ys) == Messages(xs) + Messages(ys)
    decreases |ys|
  {
    if ys == [] {
      assert xs + ys == xs;
    } else {
      var init := ys[..|ys| - 1];
      assert (xs + ys)[..|xs + ys| - 1] == xs + init;
      MessagesConcat(xs, init);
    }
  }

  /** One outcome contributes its message when it is a refusal, nothing
      otherwise. */
  lemma MessagesSingle(o: Result<Doc, string>)
    ensures Messages([o]) == if o.Ok? then [] else [o.error]
  {
    assert [o][..0] == [];
  }

  /** Every row is counted once: as a success or as one message. */
  lemma {:induction false} EachRowCountedOnce(os: seq<Result<Doc, string>>)
    ensures Successes(os) + |Messages(os)| == |os|
    decreases |os|
  {
    if os != [] {
      EachRowCountedOnce(os[..|os| - 1]);
    }
  }

  /** The live collection after the writes of the first `m` rows: each
      accepted row under its own auto-id. */
  function Written(c: Collection, ids: seq<string>, os: seq<Result<Doc, string>>, m: nat): Collection
    requires m <= |ids| && m <= |os|
  {
    if m == 0 then c
    else if os[m - 1].Ok? then Written(c, ids, os, m - 1)[ids[m - 1] := os[m - 1].value]
    else Written(c, ids, os, m - 1)
  }

  /** The writes add exactly the auto-ids of the accepted rows. */
  lemma {:induction false} WrittenKeys(c: Collection, ids: seq<string>, os: seq<Result<Doc, string>>, m: nat)
    requires m <= |os| && m <= |ids|
    ensures Written(c, ids, os, m).Keys == c.Keys + (set k | 0 <= k < m && os[k].Ok? :: ids[k])
    decreases m
  {
    if m > 0 {
      WrittenKeys(c, ids, os, m - 1);
      if os[m - 1].Ok? {
        assert (set k | 0 <= k < m && os[k].Ok? :: ids[k])
               == (set k | 0 <= k < m - 1 && os[k].Ok? :: ids[k]) + {ids[m - 1]};
      } else {
        assert (set k | 0 <= k < m && os[k].Ok? :: ids[k]) == (set k | 0 <= k < m - 1 && os[k].Ok? :: ids[k]);
      }
    }
  }

  /** With fresh auto-ids, each accepted row's record is stored under its own
      id and the documents already there stay as they were. */
  lemma {:induction false} WrittenValues(c: Collection, ids: seq<string>, os: seq<Result<Doc, string>>, m: nat)
    requires m <= |os| && m <= |ids|
    requires forall i, j :: 0 <= i < j < m ==> ids[i] != ids[j]
    requires forall i :: 0 <= i < m ==> ids[i] !in c
    ensures var r := Written(c, ids, os, m);
            && (forall k :: 0 <= k < m && os[k].Ok? ==> ids[k] in r && r[ids[k]] == os[k].value)
            && (forall id :: id in c ==> id in r && r[id] == c[id])
    decreases m
  {
    if m > 0 {
      WrittenValues(c, ids, os, m - 1);
      var r := Written(c, ids, os, m);
      if os[m - 1].Ok? {
        forall k | 0 <= k < m - 1 && os[k].Ok?
          ensures ids[k] in r && r[ids[k]] == os[k].value
        {
          assert ids[k] != ids[m - 1];
        }
      }
    }
  }

  /** The report of a finished upload: the counters, the row count and the
      first ten messages. */
  function Report(os: seq<Result<Doc, string>>): (r: UploadResults)
    ensures r.success + r.error == r.total == |os|
    ensures r.success == Successes(os) && r.error == |Messages(os)|
    ensures |r.errors| <= 10 && |r.errors| <= |Messages(os)| && r.errors == Messages(os)[..|r.errors|]
    ensures |r.errors| == 10 || r.errors == Messages(os)
  {
    EachRowCountedOnce(os);
    var ms := Messages(os);
    UploadResults(Successes(os), |ms|, |os|, ms[..if |ms| < 10 then |ms| else 10])
  }

  /** `processData`: refuse when the store is not configured, otherwise
      validate and write row by row and report the counters, the row count and
      the first ten messages. The store's refusals are injected as a map from
      row index to message, the auto-ids as one id per row. */
  method ProcessData(db: Firestore?, rows: seq<Row>, clock: seq<ClockReads>, freshIds: seq<string>,
                     storeFailures: map<nat, string>)
    returns (results: Option<UploadResults>)
    requires |freshIds| == |rows| && |clock| == |rows|
    modifies db
    ensures db == null ==> results == None
    ensures db != null ==>
              var os := Outcomes(rows, clock, storeFailures);
              && results == Some(Report(os))
              && db.quizQuestions == Written(old(db.quizQuestions), freshIds, os, |rows|)
              && db.stagingBatches == old(db.stagingBatches) && db.batchQuestions == old(db.batchQuestions)
  {
    if db == null {
      return None;
    }
    var outcomes := Outcomes(rows, clock, storeFailures);
    var successCount, errors := WriteOutcomes(db, outcomes, freshIds);
    EachRowCountedOnce(outcomes);
    var shown := if |errors| < 10 then |errors| else 10;
    return Some(UploadResults(successCount, |errors|, |rows|, errors[..shown]));
  }

  /** One more row adds its success or its message to the counts of the rows
      before it. */
  lemma OutcomeStep(os: seq<Result<Doc, string>>, i: nat)
    requires i < |os|
    ensures Successes(os[..i + 1]) == Successes(os[..i]) + (if os[i].Ok? then 1 else 0)
    ensures Messages(os[..i + 1]) == Messages(os[..i]) + (if os[i].Ok? then [] else [os[i].error])
  {
    assert os[..i + 1][..i] == os[..i];
  }

  /** The loop over the rows' outcomes: an accepted row is written under its
      auto-id and counted, a refused one has its message collected, in row
      order. */
  method WriteOutcomes(db: Firestore, os: seq<Result<Doc, string>>, freshIds: seq<string>)
    returns (successCount: nat, errors: seq<string>)
    requires |freshIds| == |os|
    modifies db
    ensures successCount == Successes(os) && errors == Messages(os)
    ensures db.quizQuestions == Written(old(db.quizQuestions), freshIds, os, |os|)
    ensures db.stagingBatches == old(db.stagingBatches) && db.batchQuestions == old(db.batchQuestions)
  {
    successCount := 0;
    errors := [];
    var i := 0;
    while i < |os|
      invariant i <= |os|
      invariant successCount == Successes(os[..i]) && errors == Messages(os[..i])
      invariant db.quizQuestions == Written(old(db.quizQuestions), freshIds, os, i)
      invariant db.stagingBatches == old(db.stagingBatches) && db.batchQuestions == old(db.batchQuestions)
    {
      OutcomeStep(os, i);
      if os[i].Ok? {
        db.quizQuestions := db.quizQuestions[freshIds[i] := os[i].value];
        successCount := successCount + 1;
      } else {
        errors := errors + [os[i].error];
      }
      i := i + 1;
    }
    assert os[..|os|] == os;
  }
}
