/** The new-case page of app/recall/case/new/page.tsx: a three-field form
    whose submit script requires a title, trims what it sends, creates the
    case and then navigates to it. What `createCase` returns is a
    parameter. */
module NewCasePage {
  import opened Wrappers
  import opened Text
  import opened RecallTypes

  const TitleRequired: string := "Title is required"
  const CreateFailed: string := "Failed to create case. Please try again."

  /** The three inputs, named as the keys of `CreateCaseData`. */
  datatype CaseField = Title | ClientName | LocationText

  /** The `maxLength` attribute of each input. */
  function MaxLength(f: CaseField): nat {
    match f
    case Title => 200
    case ClientName => 100
    case LocationText => 200
  }

  /** The text the three inputs hold. */
  datatype CaseForm = CaseForm(title: string, client_name: string, location_text: string) {
    function Get(f: CaseField): string {
      match f
      case Title => title
      case ClientName => client_name
      case LocationText => location_text
    }

    /** `{...prev, [field]: value}`. */
    function Set(f: CaseField, value: string): (r: CaseForm)
      ensures r.Get(f) == value
      ensures forall g: CaseField | g != f :: r.Get(g) == Get(g)
    {
      match f
      case Title => this.(title := value)
      case ClientName => this.(client_name := value)
      case LocationText => this.(location_text := value)
    }

    /** Every input holds no more than its `maxLength`. */
    predicate WithinLimits() {
      |title| <= MaxLength(Title) && |client_name| <= MaxLength(ClientName)
      && |location_text| <= MaxLength(LocationText)
    }
  }

  /** `s.trim() || undefined`. */
  function TrimOrAbsent(s: string): (r: Option<string>)
    ensures r.None? <==> IsBlank(s)
    ensures r.Some? ==> r.value == Trim(s) && r.value != ""
  {
    if Trim(s) == "" then None else Some(Trim(s))
  }

  /** The payload handed to `createCase`. */
  function Payload(form: CaseForm): CreateCaseData {
    CreateCaseData(Trim(form.title), TrimOrAbsent(form.client_name), TrimOrAbsent(form.location_text))
  }

  /** The payload of a form whose title is not blank has a non-empty
      title with no white space at either end, and each optional text is
      either absent or non-empty and trimmed; nothing grows. */
  lemma PayloadIsTrimmed(form: CaseForm)
    requires !IsBlank(form.title)
    ensures var p := Payload(form);
      && p.title != "" && !IsSpace(p.title[0]) && !IsSpace(p.title[|p.title| - 1])
      && |p.title| <= |form.title|
      && (p.client_name.Some? ==> p.client_name.value != "" && |p.client_name.value| <= |form.client_name|)
      && (p.location_text.Some? ==> p.location_text.value != "" && |p.location_text.value| <= |form.location_text|)
  {
  }

  /** Trimming twice is trimming once: the payload of a form filled with a
      payload's own texts is that payload. */
  lemma PayloadIdempotent(form: CaseForm)
    ensures var p := Payload(form);
      Payload(CaseForm(p.title, p.client_name.GetOr(""), p.location_text.GetOr(""))) == p
  {
    TrimUnpadded(Trim(form.title));
    TrimOrAbsentIdempotent(form.client_name);
    TrimOrAbsentIdempotent(form.location_text);
  }

  lemma TrimOrAbsentIdempotent(s: string)
    ensures TrimOrAbsent(TrimOrAbsent(s).GetOr("")) == TrimOrAbsent(s)
  {
    if Trim(s) == "" {
      TrimUnpadded("");
    } else {
      TrimUnpadded(Trim(s));
    }
  }

  /** The page's state: the form, the busy flag, the error banner, the
      navigations the router was asked for and the payloads `createCase`
      was called with. */
  class NewCaseScreen {
    var form: CaseForm
    var loading: bool
    var error: string
    var pushes: seq<string>
    var calls: seq<CreateCaseData>

    constructor ()
      ensures form == CaseForm("", "", "") && !loading && error == "" && pushes == [] && calls == []
    {
      form := CaseForm("", "", "");
      loading := false;
      error := "";
      pushes := [];
      calls := [];
    }

    /** The submit button's `disabled`. */
    predicate SubmitDisabled()
      reads this
    {
      loading || IsBlank(form.title)
    }

    /** `handleChange`: the named field takes the value and any error is
        cleared. */
    method HandleChange(f: CaseField, value: string)
      modifies this`form, this`error
      ensures form == old(form).Set(f, value)
      ensures error == ""
    {
      form := form.Set(f, value);
      if error != "" {
        error := "";
      }
    }

    /** `handleSubmit`. A blank title is refused before anything else;
        otherwise `createCase` receives the trimmed payload and the page
        navigates to the new case, or shows a fixed message when the call
        throws. `loading` is false afterwards on both paths of the call.
        `created` is the id of the case `createCase` returns, `None` when it
        throws. */
    method HandleSubmit(created: Option<string>)
      modifies this`error, this`loading, this`pushes, this`calls
      ensures Trim(form.title) == "" ==>
        && error == TitleRequired && loading == old(loading) && pushes == old(pushes) && calls == old(calls)
      ensures Trim(form.title) != "" ==> Submitted(old(pushes), old(calls), Payload(form), created)
    {
      if Trim(form.title) == "" {
        error := TitleRequired;
        return;
      }
      CreateAndNavigate(Payload(form), created);
    }

    /** The state after the `try`/`finally` of `handleSubmit`, given the
        navigations and calls before it: the payload was passed to
        `createCase`, `loading` is off, and either the page moved to the
        new case with no error showing or it stayed with the failure
        message. */
    predicate Submitted(pushes0: seq<string>, calls0: seq<CreateCaseData>, payload: CreateCaseData, created: Option<string>)
      reads this
    {
      && !loading && calls == calls0 + [payload]
      && (created.Some? ==> pushes == pushes0 + ["/recall/case/" + created.value] && error == "")
      && (created.None? ==> pushes == pushes0 && error == CreateFailed)
    }

    /** From `setLoading(true)` to the `finally` block. */
    method CreateAndNavigate(payload: CreateCaseData, created: Option<string>)
      modifies this`error, this`loading, this`pushes, this`calls
      ensures Submitted(old(pushes), old(calls), payload, created)
    {
      loading := true;
      error := "";
      calls := calls + [payload];
      if created.Some? {
        pushes := pushes + ["/recall/case/" + created.value];
      } else {
        error := CreateFailed;
      }
      loading := false;
    }
  }

  /** An enabled submit button means the submit passes the title check
      and starts the call. */
  lemma EnabledSubmitCreates(screen: NewCaseScreen)
    requires !screen.SubmitDisabled()
    ensures Trim(screen.form.title) != "" && !screen.loading
  {
  }

  /** An input edit keeps the form within its limits when the browser has
      capped the value. */
  lemma ChangeKeepsLimits(form: CaseForm, f: CaseField, value: string)
    requires form.WithinLimits() && |value| <= MaxLength(f)
    ensures form.Set(f, value).WithinLimits()
  {
    match f
    case Title => case ClientName => case LocationText =>
  }
}
