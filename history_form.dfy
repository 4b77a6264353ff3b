/**
 * The visit record form (`HistoryForm`): a blank form overlaid with the data a
 * capture flow produced, per-field edits, and a submit that checks the three
 * required fields and never calls the save callback twice at once.
 */
module HistoryForm {
  import opened Wrappers

  /** `HistoryFormData`: a visit record without its id and prescriptions. */
  datatype FormData = FormData(title: string, date: string, hospital: string, doctor: string,
                               symptoms: string, notes: string)

  /** `Partial<HistoryFormData>`: each field present or absent. */
  datatype PartialForm = PartialForm(title: Option<string>, date: Option<string>, hospital: Option<string>,
                                     doctor: Option<string>, symptoms: Option<string>, notes: Option<string>)

  /** The `name` attribute of an input, which `handleChange` uses as the key. */
  datatype Field = Title | Date | Hospital | Doctor | Symptoms | Notes

  const NoData: PartialForm := PartialForm(None, None, None, None, None, None)

  /**
   * `BLANK_FORM`, whose other fields are empty and whose date is the UTC
   * calendar date (`YYYY-MM-DD`) at the moment the module was loaded: it is
   * computed once, so it is not the local date and does not move on past
   * midnight.
   */
  function BlankForm(loadDate: string): FormData
  {
    FormData("", loadDate, "", "", "", "")
  }

  function Get(form: FormData, field: Field): string
  {
    match field
    case Title => form.title
    case Date => form.date
    case Hospital => form.hospital
    case Doctor => form.doctor
    case Symptoms => form.symptoms
    case Notes => form.notes
  }

  function Pick(given: Option<string>, fallback: string): string
  {
    if given.Some? then given.value else fallback
  }

  function GetGiven(data: PartialForm, field: Field): Option<string>
  {
    match field
    case Title => data.title
    case Date => data.date
    case Hospital => data.hospital
    case Doctor => data.doctor
    case Symptoms => data.symptoms
    case Notes => data.notes
  }

  /** `{ ...BLANK_FORM, ...initialData }`: every field the data carries wins, the rest keep the blank form's value. */
  function InitialForm(loadDate: string, data: Option<PartialForm>): (form: FormData)
    ensures data.None? ==> form == BlankForm(loadDate)
    ensures forall field :: data.Some? && GetGiven(data.value, field).Some? ==> Get(form, field) == GetGiven(data.value, field).value
    ensures forall field :: (data.None? || GetGiven(data.value, field).None?) ==> Get(form, field) == Get(BlankForm(loadDate), field)
  {
    var blank := BlankForm(loadDate);
    if data.None? then blank
    else
      var d := data.value;
      FormData(Pick(d.title, blank.title), Pick(d.date, blank.date), Pick(d.hospital, blank.hospital),
               Pick(d.doctor, blank.doctor), Pick(d.symptoms, blank.symptoms), Pick(d.notes, blank.notes))
  }

  /** Data that carries no field gives the blank form, as no data at all does. */
  lemma EmptyDataIsBlank(loadDate: string)
    ensures InitialForm(loadDate, Some(NoData)) == InitialForm(loadDate, None)
  {
  }

  /** `setForm(p => ({ ...p, [name]: value }))`. */
  function SetField(form: FormData, field: Field, value: string): (r: FormData)
    ensures Get(r, field) == value
    ensures forall other :: other != field ==> Get(r, other) == Get(form, other)
  {
    match field
    case Title => form.(title := value)
    case Date => form.(date := value)
    case Hospital => form.(hospital := value)
    case Doctor => form.(doctor := value)
    case Symptoms => form.(symptoms := value)
    case Notes => form.(notes := value)
  }

  /** Writing back the value a field already has changes nothing. */
  lemma SetFieldSame(form: FormData, field: Field)
    ensures SetField(form, field, Get(form, field)) == form
  {
  }

  /** `!form.title || !form.hospital || !form.date`: only the empty text fails; spaces pass. */
  predicate MissingRequired(form: FormData)
  {
    form.title == "" || form.hospital == "" || form.date == ""
  }

  datatype SubmitStart = Incomplete | AlreadySubmitting | Saving(data: FormData)

  class Form {
    /** The date of the shared `BLANK_FORM`, fixed when the module was loaded. */
    const blankDate: string
    var form: FormData
    var submitting: bool

    constructor(loadDate: string, data: Option<PartialForm>)
      ensures blankDate == loadDate && form == InitialForm(loadDate, data) && !submitting
    {
      blankDate := loadDate;
      form := InitialForm(loadDate, data);
      submitting := false;
    }

    /** The effect that rebuilds the form when new initial data arrives, over the same blank form. */
    method Reinitialise(data: Option<PartialForm>)
      modifies this`form
      ensures form == InitialForm(blankDate, data)
    {
      form := InitialForm(blankDate, data);
    }

    /** `handleChange`: only the named field takes the typed value. */
    method HandleChange(field: Field, value: string)
      modifies this`form
      ensures Get(form, field) == value
      ensures forall other :: other != field ==> Get(form, other) == Get(old(form), other)
    {
      form := SetField(form, field, value);
    }

    /**
     * The synchronous part of `handleSubmit`, up to `await onSave(form)`: an
     * incomplete form is refused first, then a second submission while one
     * is running; otherwise `submitting` is raised and the form is handed to
     * the save callback.
     */
    method BeginSubmit() returns (start: SubmitStart)
      modifies this`submitting
      ensures start == Incomplete <==> MissingRequired(form)
      ensures start == AlreadySubmitting <==> !MissingRequired(form) && old(submitting)
      ensures start.Saving? ==> start.data == form && !old(submitting) && submitting
      ensures !start.Saving? ==> submitting == old(submitting)
    {
      if MissingRequired(form) {
        return Incomplete;
      }
      if submitting {
        return AlreadySubmitting;
      }
      submitting := true;
      start := Saving(form);
    }

    /** The `finally` after the save callback settles, whether it resolved or rejected. */
    method FinishSubmit()
      modifies this`submitting
      ensures !submitting
    {
      submitting := false;
    }
  }

  /** While one save is running, a second submit never reaches the save callback. */
  method NoSecondSaveWhileSubmitting(f: Form) returns (second: SubmitStart)
    requires !MissingRequired(f.form)
    modifies f
    ensures second == AlreadySubmitting
  {
    var first := f.BeginSubmit();
    second := f.BeginSubmit();
  }
}
