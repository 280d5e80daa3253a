/** The new-showing page of app/dashboard/new/page.tsx: the client-side
    validator, the per-field input handler, and the submit script that
    creates the showing and then, when asked, sends the SMS. The session,
    the clock, date parsing and the two servers' replies are parameters. */
module ShowingForm {
  import opened Wrappers
  import opened Text
  import opened ShowingTypes
  import ShowingsApi
  import SmsApi

  /** The eight inputs of the form, named as in the request body. */
  datatype Field = BuyerName | BuyerPhone | BuyerEmail | Address | City | State | Zip | ShowingDatetime

  const AllFields: set<Field> := {BuyerName, BuyerPhone, BuyerEmail, Address, City, State, Zip, ShowingDatetime}

  lemma InAllFields(f: Field)
    ensures f in AllFields
  {
    match f
    case BuyerName => case BuyerPhone => case BuyerEmail => case Address =>
    case City => case State => case Zip => case ShowingDatetime =>
  }

  datatype FormData = FormData(
    buyer_name: string,
    buyer_phone: string,
    buyer_email: string,
    address: string,
    city: string,
    state: string,
    zip: string,
    showing_datetime: string)
  {
    function Get(f: Field): string {
      match f
      case BuyerName => buyer_name
      case BuyerPhone => buyer_phone
      case BuyerEmail => buyer_email
      case Address => address
      case City => city
      case State => state
      case Zip => zip
      case ShowingDatetime => showing_datetime
    }

    /** `{...showingData, [name]: value}`. */
    function Set(f: Field, value: string): (d: FormData)
      ensures d.Get(f) == value
      ensures forall g: Field | g != f :: d.Get(g) == Get(g)
    {
      match f
      case BuyerName => this.(buyer_name := value)
      case BuyerPhone => this.(buyer_phone := value)
      case BuyerEmail => this.(buyer_email := value)
      case Address => this.(address := value)
      case City => this.(city := value)
      case State => this.(state := value)
      case Zip => this.(zip := value)
      case ShowingDatetime => this.(showing_datetime := value)
    }
  }

  const EmptyForm: FormData := FormData("", "", "", "", "", "", "", "")

  const NameRequired: string := "Buyer name is required"
  const PhoneRequired: string := "Buyer phone is required"
  const AddressRequired: string := "Property address is required"
  const CityRequired: string := "City is required"
  const StateRequired: string := "State is required"
  const ZipRequired: string := "ZIP code is required"
  const DateRequired: string := "Showing date/time is required"
  const PhoneFormat: string := "Phone must start with + (E.164 format)"
  const EmailFormat: string := "Please enter a valid email address"
  const StateLength: string := "State must be 2 characters (e.g., CA, NY)"
  const ZipFormat: string := "ZIP code must be 5 digits (12345) or 9 digits (12345-6789)"
  const DateInPast: string := "Showing must be scheduled for a future date/time"

  /** The unanchored pattern `\S+@\S+\.\S+` finds a match: an '@' with a
      non-space before it, then a run of non-spaces of length at least one,
      then a '.', then a non-space. */
  predicate EmailLike(s: string) {
    exists at, dot | 1 <= at && at + 2 <= dot && dot + 1 < |s| :: EmailMatch(s, at, dot)
  }

  /** The pattern matches with its '@' at `at` and its '.' at `dot`. */
  predicate EmailMatch(s: string, at: nat, dot: nat)
    requires 1 <= at && at + 2 <= dot && dot + 1 < |s|
  {
    && s[at] == '@' && s[dot] == '.'
    && !IsSpace(s[at - 1]) && !IsSpace(s[dot + 1])
    && forall k | at < k < dot :: !IsSpace(s[k])
  }

  /** The anchored pattern `^\d{5}(-\d{4})?$`. */
  predicate ZipLike(s: string) {
    || (|s| == 5 && forall i | 0 <= i < 5 :: IsDigit(s[i]))
    || (|s| == 10 && s[5] == '-' && forall i | 0 <= i < 10 && i != 5 :: IsDigit(s[i]))
  }

  /** `new Date(text) <= now`: `parse` gives the time the text denotes, or
      `None` for an invalid date, which compares false with everything. */
  predicate NotInFuture(text: string, now: int, parse: string -> Option<int>) {
    parse(text).Some? && parse(text).value <= now
  }

  /** The message of the first block of checks: a required field that is
      blank (for the date, empty). */
  function RequiredError(d: FormData, f: Field): Option<string> {
    match f
    case BuyerName => if IsBlank(d.buyer_name) then Some(NameRequired) else None
    case BuyerPhone => if IsBlank(d.buyer_phone) then Some(PhoneRequired) else None
    case BuyerEmail => None
    case Address => if IsBlank(d.address) then Some(AddressRequired) else None
    case City => if IsBlank(d.city) then Some(CityRequired) else None
    case State => if IsBlank(d.state) then Some(StateRequired) else None
    case Zip => if IsBlank(d.zip) then Some(ZipRequired) else None
    case ShowingDatetime => if d.showing_datetime == "" then Some(DateRequired) else None
  }

  /** The message of the second block of checks: a non-empty value of the
      wrong shape, or a date that is not in the future. */
  function FormatError(d: FormData, f: Field, now: int, parse: string -> Option<int>): Option<string> {
    match f
    case BuyerPhone => if d.buyer_phone != "" && !("+" <= d.buyer_phone) then Some(PhoneFormat) else None
    case BuyerEmail => if d.buyer_email != "" && !EmailLike(d.buyer_email) then Some(EmailFormat) else None
    case State => if d.state != "" && |d.state| != 2 then Some(StateLength) else None
    case Zip => if d.zip != "" && !ZipLike(d.zip) then Some(ZipFormat) else None
    case ShowingDatetime =>
      if d.showing_datetime != "" && NotInFuture(d.showing_datetime, now, parse) then Some(DateInPast) else None
    case _ => None
  }

  /** The message a field is left with once every check has run: the
      second block's message overwrites the first's. */
  function FieldError(d: FormData, f: Field, now: int, parse: string -> Option<int>): Option<string> {
    if FormatError(d, f, now, parse).Some? then FormatError(d, f, now, parse) else RequiredError(d, f)
  }

  /** The error map `validateForm` sets: one entry per failing field. */
  function FormErrors(d: FormData, now: int, parse: string -> Option<int>): map<Field, string> {
    map f | f in AllFields && FieldError(d, f, now, parse).Some? :: FieldError(d, f, now, parse).value
  }

  /** One check of `validateForm`: when it fails, the field's message is
      set, replacing any earlier one; nothing else changes. */
  method Flag(m: map<Field, string>, failed: bool, f: Field, message: string) returns (r: map<Field, string>)
    ensures failed ==> f in r && r[f] == message
    ensures !failed ==> (f in r <==> f in m) && (f in m ==> r[f] == m[f])
    ensures forall g | g != f :: (g in r <==> g in m)
    ensures forall g | g != f && g in m :: r[g] == m[g]
  {
    r := m;
    if failed {
      r := r[f := message];
    }
  }

  /** The map holds, for field `f`, exactly the message `message`. */
  predicate Holds(m: map<Field, string>, f: Field, message: Option<string>) {
    (f in m <==> message.Some?) && (f in m ==> m[f] == message.value)
  }

  /** The map holds, for field `f`, exactly the message `FieldError` gives. */
  predicate Agrees(m: map<Field, string>, d: FormData, f: Field, now: int, parse: string -> Option<int>) {
    Holds(m, f, FieldError(d, f, now, parse))
  }

  /** The map holds every field's final message. */
  predicate AllAgree(m: map<Field, string>, d: FormData, now: int, parse: string -> Option<int>) {
    && Agrees(m, d, BuyerName, now, parse)
    && Agrees(m, d, BuyerPhone, now, parse)
    && Agrees(m, d, BuyerEmail, now, parse)
    && Agrees(m, d, Address, now, parse)
    && Agrees(m, d, City, now, parse)
    && Agrees(m, d, State, now, parse)
    && Agrees(m, d, Zip, now, parse)
    && Agrees(m, d, ShowingDatetime, now, parse)
  }

  /** The message each field's entry should hold at some point of
      `validateForm`; `None` for no entry. */
  datatype Messages = Messages(
    name: Option<string>, phone: Option<string>, email: Option<string>, address: Option<string>,
    city: Option<string>, state: Option<string>, zip: Option<string>, date: Option<string>)

  const NoMessages := Messages(None, None, None, None, None, None, None, None)

  /** Every field's entry of `m` is as `e` says. */
  predicate HoldsEach(m: map<Field, string>, e: Messages) {
    && Holds(m, BuyerName, e.name) && Holds(m, BuyerPhone, e.phone) && Holds(m, BuyerEmail, e.email)
    && Holds(m, Address, e.address) && Holds(m, City, e.city) && Holds(m, State, e.state)
    && Holds(m, Zip, e.zip) && Holds(m, ShowingDatetime, e.date)
  }

  /* The twelve checks of `validateForm`, in their order, in six groups.
     Each group takes the map the earlier checks left, described by `e`,
     and settles the entries of the fields it checks: a field whose last
     check has run holds its `FieldError`, the others keep what `e` says. */

  /** Checks 1-2: buyer name and phone required. */
  method ContactRequiredChecks(d: FormData, m: map<Field, string>, ghost e: Messages, now: int, parse: string -> Option<int>)
    returns (r: map<Field, string>)
    requires HoldsEach(m, e) && e.name.None? && e.phone.None?
    ensures HoldsEach(r, e.(name := FieldError(d, BuyerName, now, parse), phone := RequiredError(d, BuyerPhone)))
  {
    r := Flag(m, IsBlank(d.buyer_name), BuyerName, NameRequired);
    r := Flag(r, IsBlank(d.buyer_phone), BuyerPhone, PhoneRequired);
  }

  /** Checks 3-4: address and city required. */
  method PlaceRequiredChecks(d: FormData, m: map<Field, string>, ghost e: Messages, now: int, parse: string -> Option<int>)
    returns (r: map<Field, string>)
    requires HoldsEach(m, e) && e.address.None? && e.city.None?
    ensures HoldsEach(r, e.(address := FieldError(d, Address, now, parse), city := FieldError(d, City, now, parse)))
  {
    r := Flag(m, IsBlank(d.address), Address, AddressRequired);
    r := Flag(r, IsBlank(d.city), City, CityRequired);
  }

  /** Checks 5-7: state, ZIP and date required (the date only when empty). */
  method RestRequiredChecks(d: FormData, m: map<Field, string>, ghost e: Messages) returns (r: map<Field, string>)
    requires HoldsEach(m, e) && e.state.None? && e.zip.None? && e.date.None?
    ensures HoldsEach(r, e.(state := RequiredError(d, State), zip := RequiredError(d, Zip),
                            date := RequiredError(d, ShowingDatetime)))
  {
    r := Flag(m, IsBlank(d.state), State, StateRequired);
    r := Flag(r, IsBlank(d.zip), Zip, ZipRequired);
    r := Flag(r, d.showing_datetime == "", ShowingDatetime, DateRequired);
  }

  /** Checks 8-9: phone format and e-mail pattern. */
  method ContactFormatChecks(d: FormData, m: map<Field, string>, ghost e: Messages, now: int, parse: string -> Option<int>)
    returns (r: map<Field, string>)
    requires HoldsEach(m, e) && e.phone == RequiredError(d, BuyerPhone) && e.email.None?
    ensures HoldsEach(r, e.(phone := FieldError(d, BuyerPhone, now, parse), email := FieldError(d, BuyerEmail, now, parse)))
  {
    r := Flag(m, d.buyer_phone != "" && !("+" <= d.buyer_phone), BuyerPhone, PhoneFormat);
    r := Flag(r, d.buyer_email != "" && !EmailLike(d.buyer_email), BuyerEmail, EmailFormat);
  }

  /** Checks 10-11: state length and ZIP pattern. */
  method PlaceFormatChecks(d: FormData, m: map<Field, string>, ghost e: Messages, now: int, parse: string -> Option<int>)
    returns (r: map<Field, string>)
    requires HoldsEach(m, e) && e.state == RequiredError(d, State) && e.zip == RequiredError(d, Zip)
    ensures HoldsEach(r, e.(state := FieldError(d, State, now, parse), zip := FieldError(d, Zip, now, parse)))
  {
    r := Flag(m, d.state != "" && |d.state| != 2, State, StateLength);
    r := Flag(r, d.zip != "" && !ZipLike(d.zip), Zip, ZipFormat);
  }

  /** Check 12: a showing date that is not in the future. */
  method DateFormatCheck(d: FormData, m: map<Field, string>, ghost e: Messages, now: int, parse: string -> Option<int>)
    returns (r: map<Field, string>)
    requires HoldsEach(m, e) && e.date == RequiredError(d, ShowingDatetime)
    ensures HoldsEach(r, e.(date := FieldError(d, ShowingDatetime, now, parse)))
  {
    r := Flag(m, d.showing_datetime != "" && NotInFuture(d.showing_datetime, now, parse), ShowingDatetime, DateInPast);
  }

  /** A map that agrees with `FieldError` on every field is the error map. */
  lemma AgreeingIsFormErrors(m: map<Field, string>, d: FormData, now: int, parse: string -> Option<int>)
    requires AllAgree(m, d, now, parse)
    ensures m == FormErrors(d, now, parse)
  {
    var errors := FormErrors(d, now, parse);
    forall f: Field ensures (f in m <==> f in errors) && (f in m ==> m[f] == errors[f]) {
      InAllFields(f);
      match f
      case BuyerName => case BuyerPhone => case BuyerEmail => case Address =>
      case City => case State => case Zip => case ShowingDatetime =>
    }
    assert m.Keys == errors.Keys;
  }

  /** The conditions a form passes, field by field: each required text is
      not blank, the phone starts with '+', the e-mail is empty or matches
      the pattern, the state has two characters, the ZIP matches its pattern
      and the date is present and not at or before now. */
  predicate Passes(d: FormData, now: int, parse: string -> Option<int>) {
    && !IsBlank(d.buyer_name)
    && !IsBlank(d.buyer_phone) && "+" <= d.buyer_phone
    && (d.buyer_email == "" || EmailLike(d.buyer_email))
    && !IsBlank(d.address) && !IsBlank(d.city)
    && !IsBlank(d.state) && |d.state| == 2
    && !IsBlank(d.zip) && ZipLike(d.zip)
    && d.showing_datetime != "" && !NotInFuture(d.showing_datetime, now, parse)
  }

  /** `validateForm` returns true exactly for the forms that meet every
      condition of `Passes`. */
  lemma PassesIffValid(d: FormData, now: int, parse: string -> Option<int>)
    ensures FormErrors(d, now, parse) == map[] <==> Passes(d, now, parse)
  {
    ValidIffNoFieldError(d, now, parse);
    if Passes(d, now, parse) {
      forall f: Field ensures FieldError(d, f, now, parse).None? {
        assert d.buyer_phone != "";
      }
    }
    if FormErrors(d, now, parse) == map[] {
      NoErrorPasses(d, now, parse);
    }
  }

  /** The converse half of `PassesIffValid`. */
  lemma NoErrorPasses(d: FormData, now: int, parse: string -> Option<int>)
    requires forall f: Field :: FieldError(d, f, now, parse).None?
    ensures Passes(d, now, parse)
  {
    assert FieldError(d, BuyerName, now, parse).None?;
    assert FieldError(d, BuyerPhone, now, parse).None?;
    assert FieldError(d, BuyerEmail, now, parse).None?;
    assert FieldError(d, Address, now, parse).None?;
    assert FieldError(d, City, now, parse).None?;
    assert FieldError(d, State, now, parse).None?;
    assert FieldError(d, Zip, now, parse).None?;
    assert FieldError(d, ShowingDatetime, now, parse).None?;
  }

  /** The form passes exactly when no field has an error. */
  lemma ValidIffNoFieldError(d: FormData, now: int, parse: string -> Option<int>)
    ensures FormErrors(d, now, parse) == map[] <==> forall f: Field :: FieldError(d, f, now, parse).None?
  {
    if FormErrors(d, now, parse) == map[] {
      forall f: Field ensures FieldError(d, f, now, parse).None? {
        InAllFields(f);
        assert f !in FormErrors(d, now, parse);
      }
    }
  }

  /** A required field whose text is blank has an error under its own key;
      the date is only checked for being empty. */
  lemma BlankRequiredFieldFails(d: FormData, f: Field, now: int, parse: string -> Option<int>)
    requires f != BuyerEmail
    requires if f == ShowingDatetime then d.Get(f) == "" else IsBlank(d.Get(f))
    ensures f in FormErrors(d, now, parse)
  {
    assert f in AllFields;
  }

  /** A phone of white space only is reported as badly formatted, not as
      missing: the format check overwrites the earlier message. */
  lemma WhitespacePhoneReportsFormat(d: FormData, now: int, parse: string -> Option<int>)
    requires d.buyer_phone != "" && IsBlank(d.buyer_phone)
    ensures FormErrors(d, now, parse)[BuyerPhone] == PhoneFormat
  {
    assert IsSpace(d.buyer_phone[0]) && !IsSpace('+');
    assert BuyerPhone in AllFields;
  }

  /** The e-mail is optional, and the pattern is unanchored: text around a
      well-formed address, spaces included, passes. */
  lemma EmailChecks(now: int, parse: string -> Option<int>, d: FormData)
    ensures d.buyer_email == "" ==> BuyerEmail !in FormErrors(d, now, parse)
    ensures EmailLike("x y@b.c z")
    ensures !EmailLike("a@b") && !EmailLike("@b.c") && !EmailLike("a@.c")
  {
    var s := "x y@b.c z";
    assert s[3] == '@' && s[5] == '.' && s[2] == 'y' && s[6] == 'c';
    assert EmailMatch(s, 3, 5);
  }

  /** The state's length is taken before trimming: " CA" fails, and a
      two-space state is reported as missing. */
  lemma StateLengthUntrimmed(d: FormData, now: int, parse: string -> Option<int>)
    ensures d.state == " CA" ==> FormErrors(d, now, parse)[State] == StateLength
    ensures d.state == "  " ==> FormErrors(d, now, parse)[State] == StateRequired
  {
    assert State in AllFields;
  }

  /** Five digits, or five digits, a dash and four digits. */
  lemma ZipShapes()
    ensures ZipLike("12345") && ZipLike("12345-6789")
    ensures !ZipLike("1234") && !ZipLike("123456") && !ZipLike("12345 6789") && !ZipLike("12345-678")
  {
    assert !IsDigit(' ');
  }

  /** The date must be strictly later than now; an unparseable date passes. */
  lemma DateMustBeLater(d: FormData, now: int, parse: string -> Option<int>)
    requires d.showing_datetime != ""
    ensures parse(d.showing_datetime) == Some(now) ==> FormErrors(d, now, parse)[ShowingDatetime] == DateInPast
    ensures parse(d.showing_datetime) == Some(now + 1) ==> ShowingDatetime !in FormErrors(d, now, parse)
    ensures parse(d.showing_datetime).None? ==> ShowingDatetime !in FormErrors(d, now, parse)
  {
    assert ShowingDatetime in AllFields;
  }

  /** `JSON.stringify(showingData)`: every field is sent, as typed. */
  function RequestOf(d: FormData): ShowingsApi.ShowingRequest {
    ShowingsApi.ShowingRequest(Some(d.buyer_name), Some(d.buyer_phone), Some(d.buyer_email), Some(d.address),
      Some(d.city), Some(d.state), Some(d.zip), Some(d.showing_datetime))
  }

  /** A text whose first character is not white space is not blank. */
  lemma LeadingCharNotBlank(s: string)
    requires s != [] && !IsSpace(s[0])
    ensures !IsBlank(s)
  {
  }

  /** What the client's checks guarantee the server: a form the client
      accepts has all seven fields the server requires; the server's phone
      rule is then exactly the extra condition of ten characters. */
  lemma ClientValidMeetsServerFields(d: FormData, now: int, parse: string -> Option<int>)
    requires FormErrors(d, now, parse) == map[]
    ensures ShowingsApi.HasRequiredFields(RequestOf(d))
    ensures ShowingsApi.ServerPhoneOk(d.buyer_phone) <==> |d.buyer_phone| >= 10
  {
    ValidIffNoFieldError(d, now, parse);
    assert FieldError(d, BuyerName, now, parse).None?;
    assert FieldError(d, BuyerPhone, now, parse).None?;
    assert FieldError(d, Address, now, parse).None?;
    assert FieldError(d, City, now, parse).None?;
    assert FieldError(d, State, now, parse).None?;
    assert FieldError(d, Zip, now, parse).None?;
    assert FieldError(d, ShowingDatetime, now, parse).None?;
  }

  /** The form of `ShortPhoneGap` meets every condition of the page. */
  lemma ShortPhonePasses(now: int, parse: string -> Option<int>)
    requires parse("2030-01-01T10:00").Some? && parse("2030-01-01T10:00").value > now
    ensures Passes(FormData("Ann", "+12345", "", "1 Main St", "Springfield", "IL", "62701", "2030-01-01T10:00"), now, parse)
  {
    LeadingCharNotBlank("Ann");
    LeadingCharNotBlank("+12345");
    LeadingCharNotBlank("1 Main St");
    LeadingCharNotBlank("Springfield");
    LeadingCharNotBlank("IL");
    LeadingCharNotBlank("62701");
    assert "+" <= "+12345";
    assert ZipLike("62701");
  }

  /** The page accepts a phone of any length that starts with '+', which
      the server rejects with 400 when it is shorter than ten characters. */
  lemma ShortPhoneGap(now: int, parse: string -> Option<int>, authHeader: Option<string>, token: string, env: ShowingsApi.ServerEnv)
    requires parse("2030-01-01T10:00").Some? && parse("2030-01-01T10:00").value > now
    ensures var short := FormData("Ann", "+12345", "", "1 Main St", "Springfield", "IL", "62701", "2030-01-01T10:00");
      && FormErrors(short, now, parse) == map[]
      && ShowingsApi.CreateShowing(Some(RequestOf(short)), authHeader, token, env) == Failure(400, ShowingsApi.PhoneFormat)
  {
    var short := FormData("Ann", "+12345", "", "1 Main St", "Springfield", "IL", "62701", "2030-01-01T10:00");
    ShortPhonePasses(now, parse);
    PassesIffValid(short, now, parse);
  }

  /** The field messages of the form `LooseFieldsGap` uses. */
  lemma LooseFieldErrors(now: int, parse: string -> Option<int>)
    requires parse("2000-01-01T00:00") == Some(now - 1)
    ensures var loose := FormData("Ann", "+15551234567", "", "1 Main St", "Springfield", "Illinois!", "ABCDE-FG", "2000-01-01T00:00");
      && FieldError(loose, State, now, parse) == Some(StateLength)
      && FieldError(loose, Zip, now, parse) == Some(ZipFormat)
      && FieldError(loose, ShowingDatetime, now, parse) == Some(DateInPast)
      && FieldError(loose, BuyerName, now, parse).None? && FieldError(loose, BuyerPhone, now, parse).None?
      && FieldError(loose, BuyerEmail, now, parse).None? && FieldError(loose, Address, now, parse).None?
      && FieldError(loose, City, now, parse).None?
  {
    LeadingCharNotBlank("Ann");
    LeadingCharNotBlank("+15551234567");
    LeadingCharNotBlank("1 Main St");
    LeadingCharNotBlank("Springfield");
    LeadingCharNotBlank("Illinois!");
    LeadingCharNotBlank("ABCDE-FG");
    assert "+" <= "+15551234567";
    assert !ZipLike("ABCDE-FG");
  }

  /** The server does not repeat the page's state, ZIP and date checks: a
      form the page rejects on exactly those three fields passes every 400
      check of the server. */
  lemma LooseFieldsGap(now: int, parse: string -> Option<int>, authHeader: Option<string>, token: string, env: ShowingsApi.ServerEnv)
    requires parse("2000-01-01T00:00") == Some(now - 1)
    ensures var loose := FormData("Ann", "+15551234567", "", "1 Main St", "Springfield", "Illinois!", "ABCDE-FG", "2000-01-01T00:00");
      && FormErrors(loose, now, parse).Keys == {State, Zip, ShowingDatetime}
      && ShowingsApi.CreateShowing(Some(RequestOf(loose)), authHeader, token, env).status != 400
  {
    var loose := FormData("Ann", "+15551234567", "", "1 Main St", "Springfield", "Illinois!", "ABCDE-FG", "2000-01-01T00:00");
    LooseFieldErrors(now, parse);
    forall f: Field ensures f in FormErrors(loose, now, parse) <==> f in {State, Zip, ShowingDatetime} {
      InAllFields(f);
    }
    ShowingsApi.ServerSkipsFormatChecks(authHeader, token, env);
  }

  /** What the showings route's reply means to the page. */
  datatype CreateReply =
    | Created(showingId: string, publicUrl: string)
    | Rejected(error: Option<string>)   // a non-2xx status and its `error` text
    | CreateUnreachable(message: string) // fetch or JSON decoding threw

  /** What the SMS route's reply means to the page. */
  datatype SmsReply =
    | SmsAccepted
    | SmsRejected(error: Option<string>)
    | SmsUnreachable(message: string)

  /** `smsResult`: `{success: true}` or `{error}`. */
  datatype SmsOutcome = SmsSuccess | SmsError(message: string)

  /** A request the page sent, with the bearer token it carried. */
  datatype Outgoing =
    | CreateRequest(token: string, showing: ShowingsApi.ShowingRequest)
    | SmsRequest(token: string, sms: SmsApi.SmsRequest)

  /** `result.error || fallback`. */
  function ErrorText(error: Option<string>, fallback: string): (m: string)
    ensures Truthy(error) ==> m == error.value
    ensures !Truthy(error) ==> m == fallback
  {
    if Truthy(error) then error.value else fallback
  }

  /** The alert the submit script raises for a reply: none on success,
      the server's error text (or a fixed fallback) on a refusal, the
      thrown message when the request could not complete. */
  function AlertOf(reply: CreateReply): (alert: seq<string>)
    ensures alert == [] <==> reply.Created?
    ensures reply.Rejected? && Truthy(reply.error) ==> alert == [reply.error.value]
  {
    match reply
    case Created(_, _) => []
    case Rejected(error) => [ErrorText(error, "Failed to create showing")]
    case CreateUnreachable(message) => [message]
  }

  /** The result `sendSmsNotification` records. */
  function SmsOutcomeOf(session: Option<string>, reply: SmsReply): SmsOutcome {
    if session.None? then SmsError("Not authenticated")
    else match reply
      case SmsAccepted => SmsSuccess
      case SmsRejected(error) => SmsError(ErrorText(error, "Failed to send SMS"))
      case SmsUnreachable(message) => SmsError(message)
  }

  /** `{showingId, message: smsMessage || undefined}`. */
  function SmsBodyOf(showingId: string, smsMessage: string): (r: SmsApi.SmsRequest)
    ensures r.showingId == Some(showingId)
    ensures r.message.None? <==> smsMessage == ""
    ensures r.message.Some? ==> r.message.value == smsMessage
  {
    SmsApi.SmsRequest(Some(showingId), if smsMessage != "" then Some(smsMessage) else None)
  }

  /** The page's state. `alerts` and `pushes` record the browser alerts and
      the router navigations, `requests` the requests sent. */
  class NewShowingPage {
    var data: FormData
    var errors: map<Field, string>
    var loading: bool
    var publicUrl: string
    var sendSms: bool
    var smsMessage: string
    var smsLoading: bool
    var smsResult: Option<SmsOutcome>
    var alerts: seq<string>
    var pushes: seq<string>
    var requests: seq<Outgoing>

    constructor ()
      ensures data == EmptyForm && errors == map[] && !loading && publicUrl == ""
      ensures !sendSms && smsMessage == "" && !smsLoading && smsResult.None?
      ensures alerts == [] && pushes == [] && requests == []
    {
      data := EmptyForm;
      errors := map[];
      loading := false;
      publicUrl := "";
      sendSms := false;
      smsMessage := "";
      smsLoading := false;
      smsResult := None;
      alerts := [];
      pushes := [];
      requests := [];
    }

    /** `validateForm`: fills a fresh error map check by check, stores it,
        and reports whether it stayed empty. */
    method ValidateForm(now: int, parse: string -> Option<int>) returns (valid: bool)
      modifies this`errors
      ensures errors == FormErrors(data, now, parse)
      ensures valid <==> errors == map[]
    {
      var d := data;
      var newErrors: map<Field, string> := map[];
      ghost var e := NoMessages;
      newErrors := ContactRequiredChecks(d, newErrors, e, now, parse);
      e := e.(name := FieldError(d, BuyerName, now, parse), phone := RequiredError(d, BuyerPhone));
      newErrors := PlaceRequiredChecks(d, newErrors, e, now, parse);
      e := e.(address := FieldError(d, Address, now, parse), city := FieldError(d, City, now, parse));
      newErrors := RestRequiredChecks(d, newErrors, e);
      e := e.(state := RequiredError(d, State), zip := RequiredError(d, Zip), date := RequiredError(d, ShowingDatetime));
      newErrors := ContactFormatChecks(d, newErrors, e, now, parse);
      e := e.(phone := FieldError(d, BuyerPhone, now, parse), email := FieldError(d, BuyerEmail, now, parse));
      newErrors := PlaceFormatChecks(d, newErrors, e, now, parse);
      e := e.(state := FieldError(d, State, now, parse), zip := FieldError(d, Zip, now, parse));
      newErrors := DateFormatCheck(d, newErrors, e, now, parse);
      AgreeingIsFormErrors(newErrors, d, now, parse);
      errors := newErrors;
      valid := |newErrors.Keys| == 0;
    }

    /** `handleInputChange`: the named field takes the typed value, and its
        error, when one is showing, is blanked. */
    method HandleInputChange(f: Field, value: string)
      modifies this`data, this`errors
      ensures data == old(data).Set(f, value)
      ensures errors == if f in old(errors) && old(errors)[f] != "" then old(errors)[f := ""] else old(errors)
    {
      data := data.Set(f, value);
      if f in errors && errors[f] != "" {
        errors := errors[f := ""];
      }
    }

    /** `sendSmsNotification`: the request carries the showing id and the
        custom message, or no message when it is empty. */
    method SendSmsNotification(showingId: string, session: Option<string>, reply: SmsReply)
      modifies this`smsLoading, this`smsResult, this`requests
      ensures requests == old(requests) + (if session.Some? then [SmsRequest(session.value, SmsBodyOf(showingId, smsMessage))] else [])
      ensures smsResult == Some(SmsOutcomeOf(session, reply)) && !smsLoading
    {
      smsLoading := true;
      smsResult := None;
      if session.None? {
        smsResult := Some(SmsError("Not authenticated"));
      } else {
        requests := requests + [SmsRequest(session.value, SmsBodyOf(showingId, smsMessage))];
        match reply {
          case SmsAccepted => smsResult := Some(SmsSuccess);
          case SmsRejected(error) => smsResult := Some(SmsError(ErrorText(error, "Failed to send SMS")));
          case SmsUnreachable(message) => smsResult := Some(SmsError(message));
        }
      }
      smsLoading := false;
    }

    /** `handleSubmit`: validate; then, with a session, create the showing
        and, when the box is checked and creation succeeded, send the SMS.
        Without a session it navigates to the login page and returns with
        `loading` still set. */
    method HandleSubmit(now: int, parse: string -> Option<int>, session: Option<string>, reply: CreateReply,
                        smsSession: Option<string>, smsReply: SmsReply)
      modifies this
      ensures data == old(data) && sendSms == old(sendSms) && smsMessage == old(smsMessage)
      ensures errors == FormErrors(data, now, parse)
      ensures errors != map[] ==>
        && loading == old(loading) && publicUrl == old(publicUrl) && requests == old(requests)
        && alerts == old(alerts) && pushes == old(pushes)
        && smsResult == old(smsResult) && smsLoading == old(smsLoading)
      ensures errors == map[] ==> Submitted(old(loading), old(publicUrl), old(requests), old(alerts), old(pushes),
                                            old(smsResult), old(smsLoading), session, reply, smsSession, smsReply)
    {
      var valid := ValidateForm(now, parse);
      if !valid {
        return;
      }
      CreateShowingRequest(session, reply, smsSession, smsReply);
    }

    /** The state after the `try` block of `handleSubmit` has run on a valid
        form, given the state before it:
        - without a session, `loading` stays set and the page navigates to
          the login page;
        - with one, the create request is sent, `loading` is cleared, the
          public URL is taken from a created showing and an alert shows any
          failure;
        - the SMS is sent only when creation succeeded and the box is
          checked; otherwise the SMS state is untouched. */
    ghost predicate Submitted(loading0: bool, publicUrl0: string, requests0: seq<Outgoing>, alerts0: seq<string>,
                              pushes0: seq<string>, smsResult0: Option<SmsOutcome>, smsLoading0: bool,
                              session: Option<string>, reply: CreateReply, smsSession: Option<string>, smsReply: SmsReply)
      reads this
    {
      && (session.None? ==>
            && loading && pushes == pushes0 + ["/login"] && requests == requests0
            && publicUrl == publicUrl0 && alerts == alerts0
            && smsResult == smsResult0 && smsLoading == smsLoading0)
      && (session.Some? ==>
            && !loading && pushes == pushes0
            && |requests| >= |requests0| + 1
            && requests[..|requests0| + 1] == requests0 + [CreateRequest(session.value, RequestOf(data))]
            && publicUrl == (if reply.Created? then reply.publicUrl else publicUrl0)
            && alerts == alerts0 + AlertOf(reply))
      && (session.Some? && reply.Created? && sendSms ==>
            && requests[|requests0| + 1..] == (if smsSession.Some? then [SmsRequest(smsSession.value, SmsBodyOf(reply.showingId, smsMessage))] else [])
            && smsResult == Some(SmsOutcomeOf(smsSession, smsReply)) && !smsLoading)
      && (!(session.Some? && reply.Created? && sendSms) ==>
            && |requests| <= |requests0| + 1
            && smsResult == smsResult0 && smsLoading == smsLoading0)
    }

    /** The `try` block of `handleSubmit`, after the form validated. */
    method CreateShowingRequest(session: Option<string>, reply: CreateReply, smsSession: Option<string>, smsReply: SmsReply)
      modifies this`loading, this`pushes, this`requests, this`publicUrl, this`alerts, this`smsResult, this`smsLoading
      ensures Submitted(old(loading), old(publicUrl), old(requests), old(alerts), old(pushes),
                        old(smsResult), old(smsLoading), session, reply, smsSession, smsReply)
    {
      loading := true;
      if session.None? {
        pushes := pushes + ["/login"];
        return;
      }
      requests := requests + [CreateRequest(session.value, RequestOf(data))];
      ghost var sent := requests;
      match reply {
        case Rejected(error) =>
          alerts := alerts + [ErrorText(error, "Failed to create showing")];
        case CreateUnreachable(message) =>
          alerts := alerts + [message];
        case Created(showingId, url) =>
          publicUrl := url;
          if sendSms {
            SendSmsNotification(showingId, smsSession, smsReply);
            assert requests[..|sent|] == sent;
          }
      }
      loading := false;
    }
  }
}
