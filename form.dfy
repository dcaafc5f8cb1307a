/** The webform store (stores/form.ts): the schema of the form being filled
    in, the values entered so far, client-side validation (required fields
    and e-mail format), submission and the mapping of backend validation
    errors onto fields, and a cache of loaded schemas. */
module Form {
  import opened Wrappers
  import Json
  import Text
  import Api

  /** The attributes of a webform element the store reads: '#type', '#title', '#required'. */
  datatype Element = Element(kind: string, title: Option<string>, required: bool)

  /** WebformSchema; `elements` in the order Object.entries lists them. */
  datatype Schema = Schema(
    id: string,
    title: string,
    description: Option<string>,
    elements: seq<(string, Element)>,
    settings: Json.Entries)

  datatype ValidationError = ValidationError(field: string, message: string)

  type FormData = map<string, Json.Value>

  /** WebformSubmission; the submission time is a millisecond timestamp. */
  datatype Submission = Submission(id: string, webformId: string, data: FormData, submittedAt: int, status: string)

  const EmailMessage := "Please enter a valid email address"

  // ---------------------------------------------------------------------------
  // Field values

  /** `formData[key]` is truthy; a missing key reads as undefined, which is falsy. */
  predicate Filled(data: FormData, key: string) {
    key in data && Json.Truthy(data[key])
  }

  /** `String(v)`, the string a regular expression test sees. */
  function AsText(v: Json.Value): (r: string)
    ensures r == "" <==> v == Json.Str("")
    ensures !v.Str? ==> '@' !in r
  {
    assert v.Num? ==> '@' !in Text.NatToString(if v.n < 0 then -v.n else v.n);
    match v
    case Null => "null"
    case Bool(b) => if b then "true" else "false"
    case Num(n) => Text.IntToString(n)
    case Str(s) => s
    case Obj(_) => "[object Object]"
  }

  /** A template literal's rendering of an optional string: `${undefined}` is "undefined". */
  function TemplateText(s: Option<string>): string {
    if s.Some? then s.value else "undefined"
  }

  // ---------------------------------------------------------------------------
  // The e-mail pattern ^[^\s@]+@[^\s@]+\.[^\s@]+$

  /** One run of `[^\s@]+`. */
  predicate Word(w: string) {
    |w| > 0 && forall i :: 0 <= i < |w| ==> !Text.IsJsSpace(w[i]) && w[i] != '@'
  }

  /** The pattern's meaning: a word, '@', a word, '.', a word. */
  predicate EmailPattern(s: string) {
    exists at, dot | 0 < at < dot < |s| ::
      s[at] == '@' && s[dot] == '.' && Word(s[..at]) && Word(s[at + 1..dot]) && Word(s[dot + 1..])
  }

  function CountChar(s: string, c: char): nat {
    if |s| == 0 then 0 else (if s[0] == c then 1 else 0) + CountChar(s[1..], c)
  }

  function IndexOf(s: string, c: char): (i: nat)
    requires c in s
    ensures i < |s| && s[i] == c && c !in s[..i]
  {
    if s[0] == c then 0 else 1 + IndexOf(s[1..], c)
  }

  predicate NoSpace(s: string) {
    forall i :: 0 <= i < |s| ==> !Text.IsJsSpace(s[i])
  }

  /** The e-mail test as it is checked: no white space, exactly one '@', not
      first, and after it a domain with a dot that is neither its first nor
      its last character. */
  function MatchesEmail(s: string): (r: bool)
    ensures r ==> |s| >= 5 && s[0] != '@' && '@' in s
  {
    && NoSpace(s)
    && '@' in s
    && CountChar(s, '@') == 1
    && var at := IndexOf(s, '@');
       && at > 0
       && var d := s[at + 1..];
          |d| >= 3 && '.' in d[1..|d| - 1]
  }

  lemma {:induction false} CountCharOne(s: string, c: char, k: nat)
    requires k < |s| && s[k] == c
    ensures CountChar(s, c) == 1 <==> forall j :: 0 <= j < |s| && j != k ==> s[j] != c
    decreases |s|
  {
    if k == 0 {
      CountCharZero(s[1..], c);
      assert forall j :: 1 <= j < |s| ==> s[j] == s[1..][j - 1];
    } else {
      CountCharOne(s[1..], c, k - 1);
      CountCharZero(s[1..], c);
      assert s[1..][k - 1] == c;
      assert forall j :: 1 <= j < |s| ==> s[j] == s[1..][j - 1];
    }
  }

  lemma {:induction false} CountCharZero(s: string, c: char)
    ensures CountChar(s, c) == 0 <==> c !in s
    decreases |s|
  {
    if |s| > 0 {
      CountCharZero(s[1..], c);
      assert s == [s[0]] + s[1..];
    }
  }

  /** A slice is a word exactly when it is non-empty and each of its characters is neither white space nor '@'. */
  lemma WordSlice(s: string, lo: nat, hi: nat)
    requires lo <= hi <= |s|
    ensures Word(s[lo..hi]) <==> lo < hi && forall i :: lo <= i < hi ==> !Text.IsJsSpace(s[i]) && s[i] != '@'
  {
    var w := s[lo..hi];
    assert forall i :: lo <= i < hi ==> s[i] == w[i - lo];
  }

  /** A string the e-mail test accepts has the shape the pattern describes. */
  lemma MatchesEmailHasPattern(s: string)
    requires MatchesEmail(s)
    ensures EmailPattern(s)
  {
    var at := IndexOf(s, '@');
    var d := s[at + 1..];
    var p :| 1 <= p < |d| - 1 && d[p] == '.';
    var dot := at + 1 + p;
    CountCharOne(s, '@', at);
    assert s[dot] == '.';
    WordSlice(s, 0, at);
    WordSlice(s, at + 1, dot);
    WordSlice(s, dot + 1, |s|);
    assert s[..at] == s[0..at];
    assert s[dot + 1..] == s[dot + 1..|s|];
  }

  /** A string of the pattern's shape passes the e-mail test. */
  lemma PatternMatchesEmail(s: string)
    requires EmailPattern(s)
    ensures MatchesEmail(s)
  {
    var at, dot :| 0 < at < dot < |s| && s[at] == '@' && s[dot] == '.'
      && Word(s[..at]) && Word(s[at + 1..dot]) && Word(s[dot + 1..]);
    PatternCharacters(s, at, dot);
    CountCharOne(s, '@', at);
    IndexOfUnique(s, '@', at);
    DomainDot(s, at, dot);
    MatchesEmailIntro(s, at);
  }

  /** The e-mail test, from its parts at the one '@'. */
  lemma MatchesEmailIntro(s: string, at: nat)
    requires NoSpace(s)
    requires 0 < at < |s|
    requires s[at] == '@'
    requires CountChar(s, '@') == 1
    requires IndexOf(s, '@') == at
    requires var d := s[at + 1..]; |d| >= 3 && '.' in d[1..|d| - 1]
    ensures MatchesEmail(s)
  {
  }

  /** A dot strictly inside a domain of at least three characters. */
  lemma DomainDot(s: string, at: nat, dot: nat)
    requires at + 1 < dot < |s| - 1 && s[dot] == '.'
    ensures var d := s[at + 1..]; |d| >= 3 && '.' in d[1..|d| - 1]
  {
    var d := s[at + 1..];
    assert d[1..|d| - 1][dot - at - 2] == '.';
  }

  /** The first occurrence of a character that occurs only once is that occurrence. */
  lemma IndexOfUnique(s: string, c: char, k: nat)
    requires k < |s| && s[k] == c && forall j :: 0 <= j < |s| && j != k ==> s[j] != c
    ensures c in s && IndexOf(s, c) == k
  {
  }

  /** In a string of the pattern's shape no character is white space and only the one at `at` is '@'. */
  lemma PatternCharacters(s: string, at: nat, dot: nat)
    requires 0 < at < dot < |s| && s[at] == '@' && s[dot] == '.'
    requires Word(s[..at]) && Word(s[at + 1..dot]) && Word(s[dot + 1..])
    ensures NoSpace(s)
    ensures forall j :: 0 <= j < |s| && j != at ==> s[j] != '@'
  {
    assert s[..at] == s[0..at];
    assert s[dot + 1..] == s[dot + 1..|s|];
    WordSlice(s, 0, at);
    WordSlice(s, at + 1, dot);
    WordSlice(s, dot + 1, |s|);
    assert !Text.IsJsSpace(s[at]) && !Text.IsJsSpace(s[dot]);
    assert forall i :: 0 <= i < |s| ==> !Text.IsJsSpace(s[i]) && (i != at ==> s[i] != '@');
  }

  /** The checked e-mail test accepts exactly the strings the pattern describes. */
  lemma MatchesEmailPattern(s: string)
    ensures MatchesEmail(s) <==> EmailPattern(s)
  {
    if MatchesEmail(s) { MatchesEmailHasPattern(s); }
    if EmailPattern(s) { PatternMatchesEmail(s); }
  }

  // ---------------------------------------------------------------------------
  // Validation rules

  /** The errors one element contributes: a "required" error when a required
      field is empty, and an e-mail error when an e-mail field holds a value
      that is not an address. */
  function ElementErrors(key: string, e: Element, data: FormData): (r: seq<ValidationError>)
    ensures forall i :: 0 <= i < |r| ==> r[i].field == key
    ensures |r| <= 2
  {
    (if e.required && !Filled(data, key)
     then [ValidationError(key, TemplateText(e.title) + " is required")] else [])
    + (if e.kind == "email" && Filled(data, key) && !MatchesEmail(AsText(data[key]))
       then [ValidationError(key, EmailMessage)] else [])
  }

  /** The errors validateForm collects, element by element in schema order. */
  function ValidationErrors(elements: seq<(string, Element)>, data: FormData): (r: seq<ValidationError>)
    ensures |r| <= 2 * |elements|
  {
    if |elements| == 0 then []
    else ElementErrors(elements[0].0, elements[0].1, data) + ValidationErrors(elements[1..], data)
  }

  /** The element satisfies both rules. */
  predicate ElementValid(key: string, e: Element, data: FormData) {
    && (e.required ==> Filled(data, key))
    && (e.kind == "email" && Filled(data, key) ==> MatchesEmail(AsText(data[key])))
  }

  /** isValid's check: every required field is filled; the e-mail format is not looked at. */
  predicate RequiredFilled(elements: seq<(string, Element)>, data: FormData) {
    forall i :: 0 <= i < |elements| ==> elements[i].1.required ==> Filled(data, elements[i].0)
  }

  lemma {:induction false} ValidationErrorsSnoc(elements: seq<(string, Element)>, k: string, e: Element, data: FormData)
    ensures ValidationErrors(elements + [(k, e)], data) == ValidationErrors(elements, data) + ElementErrors(k, e, data)
    decreases |elements|
  {
    var x := elements + [(k, e)];
    if |elements| == 0 {
      assert x[1..] == [];
      assert ValidationErrors(x, data) == ElementErrors(k, e, data) + [];
    } else {
      assert x[0] == elements[0];
      assert x[1..] == elements[1..] + [(k, e)];
      ValidationErrorsSnoc(elements[1..], k, e, data);
      var h := ElementErrors(elements[0].0, elements[0].1, data);
      assert ValidationErrors(x, data) == h + ValidationErrors(x[1..], data);
      assert ValidationErrors(elements, data) == h + ValidationErrors(elements[1..], data);
    }
  }

  /** Validation finds no error exactly when every element satisfies both rules. */
  lemma {:induction false} ValidationErrorsEmpty(elements: seq<(string, Element)>, data: FormData)
    ensures ValidationErrors(elements, data) == [] <==>
            forall i :: 0 <= i < |elements| ==> ElementValid(elements[i].0, elements[i].1, data)
    decreases |elements|
  {
    if |elements| > 0 {
      ValidationErrorsEmpty(elements[1..], data);
      assert forall i :: 1 <= i < |elements| ==> elements[i] == elements[1..][i - 1];
    }
  }

  /** Every error names a field of the schema. */
  lemma {:induction false} ValidationErrorsNameFields(elements: seq<(string, Element)>, data: FormData)
    ensures forall e :: e in ValidationErrors(elements, data) ==>
              exists i :: 0 <= i < |elements| && elements[i].0 == e.field
    decreases |elements|
  {
    if |elements| > 0 {
      ValidationErrorsNameFields(elements[1..], data);
      forall e | e in ValidationErrors(elements, data)
        ensures exists i :: 0 <= i < |elements| && elements[i].0 == e.field
      {
        if e in ElementErrors(elements[0].0, elements[0].1, data) {
          assert elements[0].0 == e.field;
        } else {
          var i :| 0 <= i < |elements[1..]| && elements[1..][i].0 == e.field;
          assert elements[i + 1].0 == e.field;
        }
      }
    }
  }

  /** A form that passes validateForm passes isValid. */
  lemma ValidateImpliesIsValid(elements: seq<(string, Element)>, data: FormData)
    requires ValidationErrors(elements, data) == []
    ensures RequiredFilled(elements, data)
  {
    ValidationErrorsEmpty(elements, data);
  }

  /** The converse fails: an optional e-mail field holding "x" passes isValid
      and fails validateForm. */
  lemma IsValidIgnoresEmailFormat()
    ensures var elements := [("mail", Element("email", Some("E-mail"), false))];
      var data := map["mail" := Json.Str("x")];
      RequiredFilled(elements, data) && ValidationErrors(elements, data) == [ValidationError("mail", EmailMessage)]
  {
    var s := "x";
    assert CountChar(s, '@') == 0;
  }

  // ---------------------------------------------------------------------------
  // Error lists

  /** getFieldErrors(field): the messages of the errors on that field, in order. */
  function FieldErrors(errors: seq<ValidationError>, field: string): (r: seq<string>)
    ensures |r| <= |errors|
    ensures r == [] <==> forall i :: 0 <= i < |errors| ==> errors[i].field != field
    ensures forall m :: m in r ==> exists i :: 0 <= i < |errors| && errors[i] == ValidationError(field, m)
  {
    if |errors| == 0 then []
    else (if errors[0].field == field then [errors[0].message] else []) + FieldErrors(errors[1..], field)
  }

  /** hasErrors: without recorded errors no field shows one. */
  function HasErrors(errors: seq<ValidationError>): (r: bool)
    ensures !r ==> forall f :: FieldErrors(errors, f) == []
  {
    |errors| > 0
  }

  /** Some error is recorded exactly when some field has an error to show. */
  lemma HasErrorsIffFieldErrors(errors: seq<ValidationError>)
    ensures HasErrors(errors) <==> exists i :: 0 <= i < |errors| && FieldErrors(errors, errors[i].field) != []
  {
    if |errors| > 0 {
      assert FieldErrors(errors, errors[0].field) != [];
    }
  }

  /** The errors that remain once those on one field are cleared, in their order. */
  function WithoutField(errors: seq<ValidationError>, field: string): (r: seq<ValidationError>)
    ensures |r| <= |errors|
    ensures forall e :: e in r <==> e in errors && e.field != field
  {
    if |errors| == 0 then []
    else (if errors[0].field != field then [errors[0]] else []) + WithoutField(errors[1..], field)
  }

  /** Clearing one field's errors empties that field's list and leaves every other field's list as it was. */
  lemma {:induction false} FieldErrorsWithout(errors: seq<ValidationError>, field: string, other: string)
    ensures FieldErrors(WithoutField(errors, field), other) == if other == field then [] else FieldErrors(errors, other)
    decreases |errors|
  {
    if |errors| > 0 {
      FieldErrorsWithout(errors[1..], field, other);
      var head := if errors[0].field != field then [errors[0]] else [];
      var w := WithoutField(errors, field);
      assert w == head + WithoutField(errors[1..], field);
      FieldErrorsAppend(head, WithoutField(errors[1..], field), other);
    }
  }

  lemma {:induction false} FieldErrorsAppend(a: seq<ValidationError>, b: seq<ValidationError>, field: string)
    ensures FieldErrors(a + b, field) == FieldErrors(a, field) + FieldErrors(b, field)
    decreases |a|
  {
    if |a| > 0 {
      assert (a + b)[0] == a[0];
      assert (a + b)[1..] == a[1..] + b;
      FieldErrorsAppend(a[1..], b, field);
      var h := if a[0].field == field then [a[0].message] else [];
      assert FieldErrors(a + b, field) == h + FieldErrors((a + b)[1..], field);
      assert FieldErrors(a, field) == h + FieldErrors(a[1..], field);
    } else {
      assert a + b == b;
    }
  }

  // ---------------------------------------------------------------------------
  // Backend validation errors

  /** One entry of a JSON:API error response: `source.pointer` and `detail`. */
  datatype BackendError = BackendError(pointer: Option<string>, detail: Option<string>)

  /** The field a backend error is shown on: the last segment of its pointer, or 'general'. */
  function PointerField(pointer: Option<string>): (r: string)
    ensures r != ""
    ensures r == "general" || (pointer.Some? && r == Text.LastSegment(pointer.value))
    ensures pointer.Some? && Text.LastSegment(pointer.value) != "" ==> r == Text.LastSegment(pointer.value)
  {
    if pointer.Some? && Text.LastSegment(pointer.value) != "" then Text.LastSegment(pointer.value) else "general"
  }

  function ToValidationError(e: BackendError): ValidationError {
    ValidationError(PointerField(e.pointer), Json.OrDefault(e.detail, "Validation error"))
  }

  /** The backend's errors, one validation error each, in the same order. */
  function MapBackendErrors(errors: seq<BackendError>): (r: seq<ValidationError>)
    ensures |r| == |errors|
    ensures forall i :: 0 <= i < |errors| ==> r[i] == ToValidationError(errors[i])
  {
    if |errors| == 0 then [] else [ToValidationError(errors[0])] + MapBackendErrors(errors[1..])
  }

  lemma PointerFieldExamples()
    ensures PointerField(Some("/data/attributes/email")) == "email"
    ensures PointerField(None) == "general"
  {
    assert "/data/attributes/email" == "/data/attributes" + "/" + "email";
    Text.LastSegmentAfterSlash("/data/attributes", "email");
  }

  /** A pointer ending in '/' has an empty last segment and falls back to "general". */
  lemma PointerFieldTrailingSlash()
    ensures PointerField(Some("/data/attributes/")) == "general"
  {
    assert "/data/attributes/" == "/data/attributes" + "/" + "";
    Text.LastSegmentAfterSlash("/data/attributes", "");
  }

  // ---------------------------------------------------------------------------
  // The store

  /** What the backend answered to the schema request: `response.data`, when present. */
  datatype FetchedForm = FetchedForm(
    id: string,
    title: Option<string>,
    description: Option<string>,
    elements: Option<seq<(string, Element)>>,
    settings: Option<Json.Entries>)

  /** How the submission request ended: the new submission's id when the
      response had data, or the rejection with the backend's error list, if it sent one. */
  datatype PostReply = Posted(data: Option<string>) | Rejected(errors: Option<seq<BackendError>>)

  datatype SubmitError = NoFormLoaded | PostFailed(errors: Option<seq<BackendError>>)

  /** The schema loadForm builds from fetched data: a missing title becomes
      the form id, a missing description null, missing elements or settings empty. */
  function SchemaOf(formId: string, f: FetchedForm): (s: Schema)
    ensures s.id == f.id
    ensures s.title == if f.title.Some? && f.title.value != "" then f.title.value else formId
    ensures s.elements == f.elements.GetOr([])
  {
    Schema(
      f.id,
      Json.OrDefault(f.title, formId),
      if f.description.Some? && f.description.value != "" then f.description else None,
      f.elements.GetOr([]),
      f.settings.GetOr([]))
  }

  /** formTitle: the loaded form's title, or 'Untitled Form' when there is no form or its title is empty. */
  function FormTitle(form: Option<Schema>): (r: string)
    ensures r != ""
    ensures form.Some? && form.value.title != "" ==> r == form.value.title
    ensures form.None? || form.value.title == "" ==> r == "Untitled Form"
  {
    if form.Some? && form.value.title != "" then form.value.title else "Untitled Form"
  }

  /** formDescription: the loaded form's description when it is a non-empty string, otherwise null. */
  function FormDescription(form: Option<Schema>): (r: Option<string>)
    ensures r.Some? <==> form.Some? && form.value.description.Some? && form.value.description.value != ""
    ensures r.Some? ==> r == form.value.description
  {
    if form.Some? && form.value.description.Some? && form.value.description.value != "" then form.value.description else None
  }

  /** A schema built from fetched data has the form id as its title when the
      backend sent none, so its displayed title is the fallback only when both are empty. */
  lemma LoadedTitle(formId: string, f: FetchedForm)
    ensures FormTitle(Some(SchemaOf(formId, f))) ==
      if f.title.Some? && f.title.value != "" then f.title.value
      else if formId != "" then formId else "Untitled Form"
  {
  }

  class FormStore {
    var currentForm: Option<Schema>
    var currentFormId: Option<string>
    var formData: FormData
    var submitting: bool
    var submitted: bool
    var validationErrors: seq<ValidationError>
    var submitError: Option<string>
    var loading: bool
    var formCache: map<string, Schema>
    var submissions: seq<Submission>

    constructor ()
      ensures currentForm == None && currentFormId == None && formData == map[]
      ensures !submitting && !submitted && validationErrors == [] && submitError == None
      ensures !loading && formCache == map[] && submissions == []
    {
      currentForm := None;
      currentFormId := None;
      formData := map[];
      submitting := false;
      submitted := false;
      validationErrors := [];
      submitError := None;
      loading := false;
      formCache := map[];
      submissions := [];
    }

    /** isValid: false with no form; otherwise every required field is filled. */
    method IsValid() returns (ok: bool)
      ensures ok <==> currentForm.Some? && RequiredFilled(currentForm.value.elements, formData)
    {
      if currentForm.None? {
        return false;
      }
      var elements := currentForm.value.elements;
      var i := 0;
      while i < |elements|
        invariant 0 <= i <= |elements|
        invariant forall j :: 0 <= j < i ==> elements[j].1.required ==> Filled(formData, elements[j].0)
      {
        var (key, field) := elements[i];
        if field.required && !(key in formData && Json.Truthy(formData[key])) {
          return false;
        }
        i := i + 1;
      }
      return true;
    }

    /** validateForm: the error list is replaced by the errors of the current
        form (none when there is no form), and the result says whether a form
        is loaded and no error was found. */
    method ValidateForm() returns (ok: bool)
      modifies this`validationErrors
      ensures validationErrors == if currentForm.None? then [] else ValidationErrors(currentForm.value.elements, formData)
      ensures ok <==> currentForm.Some? && validationErrors == []
    {
      validationErrors := [];
      if currentForm.None? {
        return false;
      }
      var elements := currentForm.value.elements;
      var i := 0;
      while i < |elements|
        invariant 0 <= i <= |elements|
        invariant validationErrors == ValidationErrors(elements[..i], formData)
      {
        var (key, field) := elements[i];
        assert elements[..i + 1] == elements[..i] + [(key, field)];
        ValidationErrorsSnoc(elements[..i], key, field, formData);
        if field.required && !(key in formData && Json.Truthy(formData[key])) {
          validationErrors := validationErrors + [ValidationError(key, TemplateText(field.title) + " is required")];
        }
        if field.kind == "email" && key in formData && Json.Truthy(formData[key]) {
          if !MatchesEmail(AsText(formData[key])) {
            validationErrors := validationErrors + [ValidationError(key, EmailMessage)];
          }
        }
        i := i + 1;
      }
      assert elements[..i] == elements;
      ok := |validationErrors| == 0;
    }

    /** loadForm(formId, forceReload). A cached schema is used as it is,
        without a request and without clearing the entered values; otherwise
        the fetched reply is used: data builds, caches and selects a schema
        and clears the entered values, no data changes nothing more, and a
        failure records a message and is passed on. */
    method LoadForm(formId: string, forceReload: bool, fetched: Result<Option<FetchedForm>, Api.Failure>)
      returns (r: Result<Option<Schema>, Api.Failure>)
      modifies this
      ensures !loading && validationErrors == []
      ensures submissions == old(submissions) && submitting == old(submitting)
      ensures !forceReload && formId in old(formCache) ==>
        && r == Ok(Some(old(formCache)[formId]))
        && currentForm == Some(old(formCache)[formId]) && currentFormId == Some(formId)
        && formCache == old(formCache) && formData == old(formData)
        && submitted == old(submitted) && submitError == None
      ensures (forceReload || formId !in old(formCache)) && fetched.Ok? && fetched.value.Some? ==>
        var schema := SchemaOf(formId, fetched.value.value);
        && r == Ok(Some(schema))
        && formCache == old(formCache)[formId := schema]
        && currentForm == Some(schema) && currentFormId == Some(formId)
        && formData == map[] && !submitted && submitError == None
      ensures (forceReload || formId !in old(formCache)) && fetched.Ok? && fetched.value.None? ==>
        && r == Ok(None)
        && currentForm == old(currentForm) && currentFormId == old(currentFormId)
        && formCache == old(formCache) && formData == old(formData)
        && submitted == old(submitted) && submitError == None
      ensures (forceReload || formId !in old(formCache)) && fetched.Err? ==>
        && r == Err(fetched.error)
        && currentForm == old(currentForm) && currentFormId == old(currentFormId)
        && formCache == old(formCache) && formData == old(formData)
        && submitted == old(submitted) && submitError == Some("Failed to load form. Please try again.")
    {
      loading := true;
      submitError := None;
      validationErrors := [];
      if !forceReload && formId in formCache {
        var cached := formCache[formId];
        currentForm := Some(cached);
        currentFormId := Some(formId);
        loading := false;
        return Ok(Some(cached));
      }
      match fetched {
        case Err(e) =>
          submitError := Some("Failed to load form. Please try again.");
          r := Err(e);
        case Ok(None) =>
          r := Ok(None);
        case Ok(Some(f)) =>
          var schema := SchemaOf(formId, f);
          formCache := formCache[formId := schema];
          currentForm := Some(schema);
          currentFormId := Some(formId);
          ResetFormData();
          r := Ok(Some(schema));
      }
      loading := false;
    }

    /** setFieldValue(field, value): that field is set and its errors, and only
        its errors, are cleared. */
    method SetFieldValue(field: string, value: Json.Value)
      modifies this`formData, this`validationErrors
      ensures formData == old(formData)[field := value]
      ensures validationErrors == WithoutField(old(validationErrors), field)
    {
      formData := formData[field := value];
      validationErrors := WithoutField(validationErrors, field);
    }

    /** setFormData(data): a merge in which the new values win and the other fields stay. */
    method SetFormData(data: FormData)
      modifies this`formData
      ensures formData.Keys == old(formData).Keys + data.Keys
      ensures forall k :: k in data ==> formData[k] == data[k]
      ensures forall k :: k in old(formData) && k !in data ==> formData[k] == old(formData)[k]
    {
      formData := formData + data;
    }

    /** resetFormData: no values, no errors, no submission message, not submitted. */
    method ResetFormData()
      modifies this`formData, this`validationErrors, this`submitError, this`submitted
      ensures formData == map[] && validationErrors == [] && submitError == None && !submitted
    {
      formData := map[];
      validationErrors := [];
      submitError := None;
      submitted := false;
    }

    /** submitForm, with the reply of the submission request as a parameter and
        the clock as `now`. Without a loaded form it fails and changes nothing;
        a form that fails validation is not posted; a posted submission is
        recorded once and the form is emptied; a rejection records the
        backend's errors, or a general message, and is passed on. */
    method SubmitForm(reply: PostReply, now: int) returns (r: Result<Option<Submission>, SubmitError>)
      modifies this
      ensures currentForm == old(currentForm) && currentFormId == old(currentFormId)
      ensures formCache == old(formCache) && loading == old(loading)
      ensures old(currentFormId).None? || old(currentFormId).value == "" || old(currentForm).None? ==>
        && r == Err(NoFormLoaded)
        && formData == old(formData) && validationErrors == old(validationErrors)
        && submissions == old(submissions) && submitted == old(submitted)
        && submitting == old(submitting) && submitError == old(submitError)
      ensures old(currentFormId).Some? && old(currentFormId).value != "" && old(currentForm).Some? ==>
        var errors := ValidationErrors(old(currentForm).value.elements, old(formData));
        if errors != [] then
          && r == Ok(None) && validationErrors == errors
          && formData == old(formData) && submissions == old(submissions)
          && submitted == old(submitted) && submitting == old(submitting) && submitError == old(submitError)
        else
          && !submitting
          && match reply
             case Posted(Some(id)) =>
               var s := Submission(id, old(currentFormId).value, old(formData), now, "completed");
               && r == Ok(Some(s)) && submissions == old(submissions) + [s]
               && formData == map[] && validationErrors == [] && submitError == None && !submitted
             case Posted(None) =>
               && r == Ok(None) && submissions == old(submissions)
               && formData == old(formData) && validationErrors == [] && submitError == None
               && submitted == old(submitted)
             case Rejected(backend) =>
               && r == Err(PostFailed(backend)) && submissions == old(submissions)
               && formData == old(formData) && submitted == old(submitted)
               && if backend.Some? then
                    validationErrors == MapBackendErrors(backend.value)
                    && submitError == Some("Please correct the errors below")
                  else
                    validationErrors == [] && submitError == Some("Submission failed. Please try again.")
    {
      if currentFormId.None? || currentFormId.value == "" || currentForm.None? {
        return Err(NoFormLoaded);
      }
      var valid := ValidateForm();
      if !valid {
        return Ok(None);
      }
      submitting := true;
      submitError := None;
      match reply {
        case Posted(Some(id)) =>
          var s := Submission(id, currentFormId.value, formData, now, "completed");
          submissions := submissions + [s];
          submitted := true;
          ResetFormData();
          r := Ok(Some(s));
        case Posted(None) =>
          r := Ok(None);
        case Rejected(backend) =>
          if backend.Some? {
            validationErrors := MapBackendErrors(backend.value);
            submitError := Some("Please correct the errors below");
          } else {
            submitError := Some("Submission failed. Please try again.");
          }
          r := Err(PostFailed(backend));
      }
      submitting := false;
    }

    /** clearCurrentForm: no form selected and the entered state reset. */
    method ClearCurrentForm()
      modifies this`currentForm, this`currentFormId, this`formData, this`validationErrors, this`submitError, this`submitted
      ensures currentForm == None && currentFormId == None
      ensures formData == map[] && validationErrors == [] && submitError == None && !submitted
    {
      currentForm := None;
      currentFormId := None;
      ResetFormData();
    }

    /** clearCache: every cached schema is forgotten. */
    method ClearCache()
      modifies this`formCache
      ensures formCache == map[]
    {
      formCache := map[];
    }
  }
}
