/**
 * The sidebar form: the validation rule for the architecture description
 * and the preset selector that fills it from the use-case catalogue.
 */
module InputForm {
  import opened Wrappers
  import opened Text

  /** One preset of the use-case catalogue; `labelText` is its `label`. */
  datatype UseCase = UseCase(value: string, labelText: string, description: string)

  /** The form's fields; an absent preset is `None`. */
  datatype FormValues = FormValues(architectureDescription: string, preset: Option<string>)

  const MinLength: nat := 50
  const MaxLength: nat := 5000
  const TooShortMessage: string := "Architecture description must be at least 50 characters."
  const TooLongMessage: string := "Description must not be longer than 5000 characters."

  /** The issues the schema reports. Both length checks run, but a length
      cannot be below the minimum and above the maximum at once, so at most
      one is reported. The length is JavaScript's, in UTF-16 code units. */
  function Issues(v: FormValues): (issues: seq<string>)
    ensures |issues| <= 1
    ensures issues == [TooShortMessage] <==> Utf16Length(v.architectureDescription) < MinLength
    ensures issues == [TooLongMessage] <==> Utf16Length(v.architectureDescription) > MaxLength
  {
    var n := Utf16Length(v.architectureDescription);
    assert |TooShortMessage| != |TooLongMessage|;
    if n < MinLength then [TooShortMessage]
    else if n > MaxLength then [TooLongMessage]
    else []
  }

  /** Schema validation: the values unchanged, or the issues found. */
  function Validate(v: FormValues): (r: Result<FormValues, seq<string>>)
    ensures r.Success? <==> MinLength <= Utf16Length(v.architectureDescription) <= MaxLength
    ensures r.Success? ==> r.value == v
    ensures r.Failure? ==> r.error == Issues(v) && |r.error| == 1
  {
    var issues := Issues(v);
    if issues == [] then Success(v) else Failure(issues)
  }

  /** `handleSubmit(onSubmit)`: the description passed on to the analysis,
      when the values validate. */
  function Submit(v: FormValues): (r: Option<string>)
    ensures r.Some? <==> Validate(v).Success?
    ensures r.Some? ==> r.value == v.architectureDescription
  {
    match Validate(v)
    case Success(ok) => Some(ok.architectureDescription)
    case Failure(_) => None
  }

  /** `USE_CASES.find(uc => uc.value === value)` as an index. */
  function FindUseCase(catalog: seq<UseCase>, value: string): (r: Option<nat>)
    ensures r.Some? ==> r.value < |catalog| && catalog[r.value].value == value
    ensures r.Some? ==> forall j | 0 <= j < r.value :: catalog[j].value != value
    ensures r.None? <==> forall j | 0 <= j < |catalog| :: catalog[j].value != value
    decreases |catalog|
  {
    if catalog == [] then None
    else if catalog[0].value == value then Some(0)
    else
      match FindUseCase(catalog[1..], value)
      case None => None
      case Some(i) => Some(i + 1)
  }

  /** `handlePresetChange`: the first preset with the selected value fills
      both fields; an unknown value changes nothing. */
  function HandlePresetChange(catalog: seq<UseCase>, v: FormValues, value: string): (r: FormValues)
    ensures (forall j | 0 <= j < |catalog| :: catalog[j].value != value) ==> r == v
    ensures forall i | 0 <= i < |catalog| && catalog[i].value == value
                       && (forall j | 0 <= j < i :: catalog[j].value != value) ::
              r == FormValues(catalog[i].description, Some(value))
  {
    match FindUseCase(catalog, value)
    case None => v
    case Some(i) => FormValues(catalog[i].description, Some(catalog[i].value))
  }

  /** The form's initial values: the first preset. */
  function DefaultValues(catalog: seq<UseCase>): (v: FormValues)
    requires catalog != []
    ensures v.preset.Some? && FindUseCase(catalog, v.preset.value) == Some(0)
    ensures v.architectureDescription == catalog[0].description
  {
    FormValues(catalog[0].description, Some(catalog[0].value))
  }

  /** The initial values are what selecting the first preset gives, from
      any values. */
  lemma DefaultIsFirstPreset(catalog: seq<UseCase>, v: FormValues)
    requires catalog != []
    ensures DefaultValues(catalog) == HandlePresetChange(catalog, v, catalog[0].value)
  {
  }

  /** Selecting a preset twice is selecting it once. */
  lemma PresetChangeIdempotent(catalog: seq<UseCase>, v: FormValues, value: string)
    ensures HandlePresetChange(catalog, HandlePresetChange(catalog, v, value), value)
            == HandlePresetChange(catalog, v, value)
  {
  }
}
