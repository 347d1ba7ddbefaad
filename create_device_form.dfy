/**
 * The device-registration form: three editable fields, a fixed user id, and
 * a submit cycle that validates, marks loading, sends the request, then
 * clears the form on success or keeps it on failure.
 */
module CreateDeviceForm {
  import opened Wrappers
  import opened Types

  const DefaultUserId: string := "default-user"

  /** The form's initial (and post-success) contents. */
  const InitialForm: CreateDeviceRequest := CreateDeviceRequest("", "", DefaultUserId, "")

  /** Both required fields must be non-empty; whitespace counts as content. */
  predicate CanSubmit(f: CreateDeviceRequest)
  {
    f.plantId != "" && f.name != ""
  }

  class Form {
    var isLoading: bool
    var formData: CreateDeviceRequest

    /** The user id is never edited. */
    ghost predicate Valid()
      reads this
    {
      formData.userId == DefaultUserId
    }

    constructor()
      ensures Valid()
      ensures !isLoading && formData == InitialForm
    {
      isLoading := false;
      formData := InitialForm;
    }

    method EditPlantId(v: string)
      requires Valid()
      modifies this`formData
      ensures Valid()
      ensures formData == old(formData).(plantId := v)
    {
      formData := formData.(plantId := v);
    }

    method EditName(v: string)
      requires Valid()
      modifies this`formData
      ensures Valid()
      ensures formData == old(formData).(name := v)
    {
      formData := formData.(name := v);
    }

    method EditOwnerEmail(v: string)
      requires Valid()
      modifies this`formData
      ensures Valid()
      ensures formData == old(formData).(ownerEmail := v)
    {
      formData := formData.(ownerEmail := v);
    }

    /**
     * The synchronous part of the submit handler: reject an incomplete form
     * before any request, or mark loading and return the request to send.
     */
    method BeginSubmit() returns (request: Option<CreateDeviceRequest>)
      requires Valid()
      modifies this`isLoading
      ensures Valid()
      ensures request.Some? <==> CanSubmit(formData)
      ensures request.Some? ==> request.value == formData && isLoading
      ensures request.None? ==> isLoading == old(isLoading)
    {
      if !CanSubmit(formData) {
        return None;
      }
      isLoading := true;
      request := Some(formData);
    }

    /** The completion of a sent request: clear on success, keep on failure, always stop loading. */
    method FinishSubmit(response: Result<PlantDevice>)
      requires Valid()
      modifies this
      ensures Valid()
      ensures !isLoading
      ensures response.Success? ==> formData == InitialForm
      ensures response.Failure? ==> formData == old(formData)
    {
      if response.Success? {
        formData := InitialForm;
      }
      isLoading := false;
    }

    /** The whole handler, when nothing is edited while the request is in flight. */
    method HandleSubmit(response: Result<PlantDevice>) returns (request: Option<CreateDeviceRequest>)
      requires Valid()
      modifies this
      ensures Valid()
      ensures request.Some? <==> CanSubmit(old(formData))
      ensures request.Some? ==> request.value == old(formData)
      ensures request.None? ==> formData == old(formData) && isLoading == old(isLoading)
      ensures request.Some? ==> !isLoading
      ensures request.Some? && response.Success? ==> formData == InitialForm
      ensures request.Some? && response.Failure? ==> formData == old(formData)
    {
      request := BeginSubmit();
      if request.Some? {
        FinishSubmit(response);
      }
    }
  }
}
