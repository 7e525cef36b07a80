/** The event manager's event form (src/components/CreateEvent.js): each
    input writes its own field, and a submission checks the four required
    fields, posts the form, and on success empties it. */
module CreateEvent {
  import opened Base

  const RequiredError := "Please fill in all required fields"
  const DefaultError := "Oops! Something went wrong. Please try again."

  datatype FormData = FormData(title: string, description: string, date: string, location: string, requirements: string)

  const BlankForm := FormData("", "", "", "", "")

  /** The inputs of the form, by their `name`. */
  datatype Field = Title | Description | Date | Location | Requirements

  function Get(f: FormData, name: Field): string {
    match name
    case Title => f.title
    case Description => f.description
    case Date => f.date
    case Location => f.location
    case Requirements => f.requirements
  }

  /** `handleChange`: `{...prev, [name]: value}`. */
  function WithField(f: FormData, name: Field, value: string): FormData {
    match name
    case Title => f.(title := value)
    case Description => f.(description := value)
    case Date => f.(date := value)
    case Location => f.(location := value)
    case Requirements => f.(requirements := value)
  }

  /** A required field is empty; requirements are optional. */
  predicate MissingRequired(f: FormData) {
    f.title == "" || f.description == "" || f.date == "" || f.location == ""
  }

  class CreateEventPage {
    var formData: FormData
    var error: string

    constructor ()
      ensures formData == BlankForm && error == ""
    {
      formData, error := BlankForm, "";
    }

    method HandleChange(name: Field, value: string)
      modifies this`formData
      ensures formData == WithField(old(formData), name, value)
    {
      formData := WithField(formData, name, value);
    }

    /** `handleSubmit`: clears the error; a missing required field stops
      it before any request; otherwise `POST /events` carries the form, and
      success empties the form while failure keeps it and shows the
      server's `error` or the default text. */
    method HandleSubmit(outcome: Response<()>) returns (request: Option<FormData>)
      modifies this
      ensures MissingRequired(old(formData)) ==>
        request == None && formData == old(formData) && error == RequiredError
      ensures !MissingRequired(old(formData)) ==> request == Some(old(formData))
      ensures !MissingRequired(old(formData)) && outcome.Ok? ==> formData == BlankForm && error == ""
      ensures !MissingRequired(old(formData)) && outcome.Failed? ==>
        formData == old(formData) && error == OrDefault(outcome.failure.body.error, DefaultError)
    {
      error := "";
      if formData.title == "" || formData.description == "" || formData.date == "" || formData.location == "" {
        error := RequiredError;
        return None;
      }
      request := Some(formData);
      match outcome {
        case Ok(_) =>
          formData := BlankForm;
        case Failed(e) =>
          error := OrDefault(e.body.error, DefaultError);
      }
    }
  }

  // ---------------------------------------------------------------------
  // Properties

  /** Editing a field sets that field and no other. */
  lemma EditChangesOnlyThatField(f: FormData, name: Field, value: string, other: Field)
    ensures Get(WithField(f, name, value), name) == value
    ensures other != name ==> Get(WithField(f, name, value), other) == Get(f, other)
  {
  }

  /** Writing back a field's own value changes nothing, and a second edit
      of the same field overrides the first. */
  lemma EditRoundTrips(f: FormData, name: Field, v1: string, v2: string)
    ensures WithField(f, name, Get(f, name)) == f
    ensures WithField(WithField(f, name, v1), name, v2) == WithField(f, name, v2)
  {
  }

  /** The requirements field never decides whether a submission goes out,
      and every other field does. */
  lemma RequirementsAreOptional(f: FormData, value: string, name: Field)
    ensures MissingRequired(WithField(f, Requirements, value)) == MissingRequired(f)
    ensures name != Requirements ==> MissingRequired(WithField(f, name, ""))
  {
  }
}
