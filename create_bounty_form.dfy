/**
 * The create-bounty form: its field state, updated one field at a time by the input
 * handlers, and its submit handler, which checks only that fields are present and then
 * builds the record handed to `onSubmit` (reward through `parseInt`, creator fixed to
 * "anonymous", id from the clock). `parseFloat` on text is supplied from outside.
 */
module CreateBountyForm {
  import opened Js
  import opened Domain

  /** A location field: a number when it was filled from the user location, else typed text. */
  datatype FieldValue = Text(s: string) | Number(x: real)

  /** JavaScript truthiness of such a field: non-empty text, or a non-zero number. */
  predicate Truthy(v: FieldValue)
    ensures Truthy(v) <==> v != Text("") && v != Number(0.0)
  {
    match v
    case Text(s) => s != ""
    case Number(x) => x != 0.0
  }

  /** `parseFloat(v)`: a number passes through, text goes to the supplied parser. */
  function ParseFloatField(v: FieldValue, parseFloat: string -> real): (x: real)
    ensures v.Number? ==> x == v.x
  {
    match v
    case Text(s) => parseFloat(s)
    case Number(x) => x
  }

  datatype FormData = FormData(
    title: string,
    description: string,
    reward: string,
    difficulty: Difficulty,
    lat: FieldValue,
    lng: FieldValue,
    puzzle: string,
    useAI: bool)

  /** The state the form mounts with: empty texts, 'easy', no puzzle, no AI, location if known. */
  function InitialForm(userLocation: Option<Coord>): (f: FormData)
    ensures f.title == "" && f.description == "" && f.reward == ""
    ensures f.difficulty == Easy && f.puzzle == "" && !f.useAI
    ensures userLocation.Some? ==> f.lat == Number(userLocation.value.lat) && f.lng == Number(userLocation.value.lng)
    ensures userLocation.None? ==> f.lat == Text("") && f.lng == Text("")
  {
    var lat := if userLocation.Some? then Number(userLocation.value.lat) else Text("");
    var lng := if userLocation.Some? then Number(userLocation.value.lng) else Text("");
    FormData("", "", "", Easy, lat, lng, "", false)
  }

  datatype SubmitOutcome = MissingInformation | LocationRequired | Submitted(data: BountyData)

  /**
   * `handleSubmit`: title, description and reward must be non-empty; only then must both
   * coordinates be truthy; then the record is built. Nothing checks the reward's value.
   */
  function HandleSubmit(f: FormData, now: nat, parseFloat: string -> real): (r: SubmitOutcome)
    ensures r == MissingInformation <==> f.title == "" || f.description == "" || f.reward == ""
    ensures r == LocationRequired <==>
              f.title != "" && f.description != "" && f.reward != "" && (!Truthy(f.lat) || !Truthy(f.lng))
    ensures r.Submitted? <==>
              f.title != "" && f.description != "" && f.reward != "" && Truthy(f.lat) && Truthy(f.lng)
    ensures r.Submitted? ==>
              && r.data.id == NatToString(now) && r.data.reward == ParseInt(f.reward)
              && r.data.creator == Anonymous
              && r.data.location == Coord(ParseFloatField(f.lat, parseFloat), ParseFloatField(f.lng, parseFloat))
              && r.data.title == f.title && r.data.description == f.description
              && r.data.difficulty == f.difficulty && r.data.puzzle == f.puzzle && r.data.useAI == f.useAI
  {
    if f.title == "" || f.description == "" || f.reward == "" then MissingInformation
    else if !Truthy(f.lat) || !Truthy(f.lng) then LocationRequired
    else
      Submitted(BountyData(
        NatToString(now), f.title, f.description, ParseInt(f.reward), f.difficulty, Anonymous,
        Coord(ParseFloatField(f.lat, parseFloat), ParseFloatField(f.lng, parseFloat)),
        f.puzzle, f.useAI))
  }

  /**
   * Presence is all that is checked: a reward typed as any integer, zero or negative
   * included, is accepted and `parseInt` gives back that integer.
   */
  lemma AnyIntegerRewardAccepted(f: FormData, n: int, now: nat, parseFloat: string -> real)
    requires f.title != "" && f.description != "" && Truthy(f.lat) && Truthy(f.lng)
    ensures var r := HandleSubmit(f.(reward := IntToString(n)), now, parseFloat);
      r.Submitted? && r.data.reward == Int(n)
  {
    var t := IntToString(n);
    assert t + "" == t;
    ParseIntOfIntToString(n, "");
    assert ParseInt(t) == Int(n);
    var g := f.(reward := t);
    assert g.reward != "";
  }

  /**
   * Reward text whose first character after the white space and the sign is not a digit
   * (`.5`, `-.5`) passes the presence check and is stored as NaN.
   */
  lemma NonNumericRewardStoredAsNaN(f: FormData, now: nat, parseFloat: string -> real)
    requires f.title != "" && f.description != "" && f.reward != "" && Truthy(f.lat) && Truthy(f.lng)
    requires AfterSign(f.reward) == [] || !IsDecimalDigit(AfterSign(f.reward)[0])
    ensures var r := HandleSubmit(f, now, parseFloat);
      r.Submitted? && r.data.reward == NaN
  {
    ParseIntWithoutLeadingDigit(f.reward);
  }

  /** A coordinate filled in from a user location at latitude or longitude exactly 0 is falsy. */
  lemma ZeroCoordinateRejected(f: FormData, now: nat, parseFloat: string -> real)
    requires f.title != "" && f.description != "" && f.reward != ""
    requires f.lat == Number(0.0)
    ensures HandleSubmit(f, now, parseFloat) == LocationRequired
  {
  }

  /** The form component's state; no handler ever sets `useAI`. */
  class Form {
    var form: FormData

    ghost predicate Valid()
      reads this
    {
      !form.useAI
    }

    constructor(userLocation: Option<Coord>)
      ensures Valid() && form == InitialForm(userLocation)
    {
      form := InitialForm(userLocation);
    }

    method SetTitle(s: string)
      requires Valid()
      modifies this
      ensures Valid() && form == old(form).(title := s)
    {
      form := form.(title := s);
    }

    method SetDescription(s: string)
      requires Valid()
      modifies this
      ensures Valid() && form == old(form).(description := s)
    {
      form := form.(description := s);
    }

    method SetReward(s: string)
      requires Valid()
      modifies this
      ensures Valid() && form == old(form).(reward := s)
    {
      form := form.(reward := s);
    }

    method SetDifficulty(d: Difficulty)
      requires Valid()
      modifies this
      ensures Valid() && form == old(form).(difficulty := d)
    {
      form := form.(difficulty := d);
    }

    /** Typing in the latitude box replaces it with text, keeping the longitude. */
    method SetLat(s: string)
      requires Valid()
      modifies this
      ensures Valid() && form == old(form).(lat := Text(s))
    {
      form := form.(lat := Text(s));
    }

    method SetLng(s: string)
      requires Valid()
      modifies this
      ensures Valid() && form == old(form).(lng := Text(s))
    {
      form := form.(lng := Text(s));
    }

    method SetPuzzle(s: string)
      requires Valid()
      modifies this
      ensures Valid() && form == old(form).(puzzle := s)
    {
      form := form.(puzzle := s);
    }

    /** Submitting leaves the form as it is; an accepted record never asks for AI. */
    method Submit(now: nat, parseFloat: string -> real) returns (r: SubmitOutcome)
      requires Valid()
      ensures r == HandleSubmit(form, now, parseFloat)
      ensures r.Submitted? ==> !r.data.useAI && r.data.creator == Anonymous
    {
      r := HandleSubmit(form, now, parseFloat);
    }
  }
}
