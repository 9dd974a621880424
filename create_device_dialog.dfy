/** The create/edit device dialog (components/CreateDeviceDialog.tsx): the
    form it starts from, how its inputs change the form, and what a submit
    does with the outcome of the create or update call. */
module CreateDeviceDialogForm {
  import opened Common

  /** The part of a backend device the dialog reads (types/api/Devices.types.ts). */
  datatype ApiDevice = ApiDevice(id: string, site: string, name: string, serial_number: string,
                                 status: string, role: string)

  /** `CreateDeviceRequest`. */
  datatype DeviceForm = DeviceForm(site: string, name: string, serial_number: string,
                                   role: string, status: string)

  /** A rejected API call: the HTTP status, if any, and the server's
      `response.data.message`, if any. */
  datatype ApiFailure = ApiFailure(status: Option<int>, message: Option<string>)

  datatype Outcome<T> = Ok(value: T) | Fail(failure: ApiFailure)

  /** The form of the reset effect: the device's own values when editing,
      otherwise the pre-selected site (or "") and the defaults. */
  function InitialForm(siteId: Option<string>, deviceToEdit: Option<ApiDevice>): (r: DeviceForm)
    ensures deviceToEdit.Some? ==> r == FormOf(deviceToEdit.value)
    ensures deviceToEdit.None? ==>
              r.site == OrDefault(siteId, "") && r.name == "" && r.serial_number == ""
              && r.role == "standalone" && r.status == "inactive"
  {
    match deviceToEdit
    case Some(d) => FormOf(d)
    case None => DeviceForm(OrDefault(siteId, ""), "", "", "standalone", "inactive")
  }

  /** The five fields the form copies from a device. */
  function FormOf(d: ApiDevice): DeviceForm {
    DeviceForm(d.site, d.name, d.serial_number, d.role, d.status)
  }

  /** The device with the form's values in place of its own. */
  function Apply(d: ApiDevice, f: DeviceForm): (r: ApiDevice)
    ensures r.id == d.id && FormOf(r) == f
  {
    d.(site := f.site, name := f.name, serial_number := f.serial_number, role := f.role, status := f.status)
  }

  /** Submitting the edit form untouched asks for the device as it is. */
  lemma UntouchedEditIsIdentity(siteId: Option<string>, d: ApiDevice)
    ensures Apply(d, InitialForm(siteId, Some(d))) == d
  {
  }

  /** The inputs of the form: two text boxes and two selects. */
  datatype Field = Name | SerialNumber | Role | Status

  function Get(f: DeviceForm, field: Field): string {
    match field
    case Name => f.name
    case SerialNumber => f.serial_number
    case Role => f.role
    case Status => f.status
  }

  /** An input's change handler: the named field takes the value and
      nothing else changes. */
  function SetField(f: DeviceForm, field: Field, value: string): (r: DeviceForm)
    ensures Get(r, field) == value
    ensures forall g :: g != field ==> Get(r, g) == Get(f, g)
    ensures r.site == f.site
  {
    match field
    case Name => f.(name := value)
    case SerialNumber => f.(serial_number := value)
    case Role => f.(role := value)
    case Status => f.(status := value)
  }

  /** Writing back a field's own value leaves the form as it was. */
  lemma SetFieldOwnValue(f: DeviceForm, field: Field)
    ensures SetField(f, field, Get(f, field)) == f
  {
  }

  /** The name and serial-number inputs are `required`: the browser blocks
      the submit while either is empty. */
  predicate RequiredFilled(f: DeviceForm) {
    f.name != "" && f.serial_number != ""
  }

  /** The request a submit makes. */
  datatype Call = Create(form: DeviceForm) | Update(id: string, form: DeviceForm)

  datatype Toast = SuccessToast(text: string) | ErrorToast(text: string)

  /** What one submit does: the call, the toast, the device handed to
      `onSuccess`, and whether the dialog closes. */
  datatype Effect = Effect(call: Call, toast: Toast, saved: Option<ApiDevice>, closes: bool)

  function SubmitEffect(deviceToEdit: Option<ApiDevice>, form: DeviceForm, outcome: Outcome<ApiDevice>): (r: Effect)
    ensures deviceToEdit.Some? ==> r.call == Update(deviceToEdit.value.id, form)
    ensures deviceToEdit.None? ==> r.call == Create(form)
    ensures r.closes <==> outcome.Ok?
    ensures r.saved.Some? <==> r.closes
    ensures r.toast.SuccessToast? <==> r.closes
    ensures outcome.Ok? ==> r.saved == Some(outcome.value)
    ensures outcome.Ok? ==> r.toast.text == (if deviceToEdit.Some? then "Device updated successfully"
                                             else "Device created successfully")
    ensures outcome.Fail? ==> r.toast.text == OrDefault(outcome.failure.message, "Failed to save device")
  {
    var call := if deviceToEdit.Some? then Update(deviceToEdit.value.id, form) else Create(form);
    match outcome
    case Ok(device) =>
      Effect(call, SuccessToast(if deviceToEdit.Some? then "Device updated successfully"
                                else "Device created successfully"), Some(device), true)
    case Fail(e) => Effect(call, ErrorToast(OrDefault(e.message, "Failed to save device")), None, false)
  }

  /** A failure without a server message shows the fixed fallback. */
  lemma SilentFailureFallsBack(deviceToEdit: Option<ApiDevice>, form: DeviceForm, status: Option<int>)
    ensures SubmitEffect(deviceToEdit, form, Fail(ApiFailure(status, None))).toast
              == ErrorToast("Failed to save device")
  {
  }

  /** The dialog's state: whether it is open, the loading flag and the form. */
  class DeviceDialog {
    var open: bool
    var loading: bool
    var form: DeviceForm
    const siteId: Option<string>
    const deviceToEdit: Option<ApiDevice>

    constructor (open: bool, siteId: Option<string>, deviceToEdit: Option<ApiDevice>)
      ensures this.open == open && !loading
      ensures this.siteId == siteId && this.deviceToEdit == deviceToEdit
      ensures form == InitialForm(siteId, deviceToEdit)
    {
      this.open := open;
      loading := false;
      this.siteId := siteId;
      this.deviceToEdit := deviceToEdit;
      form := InitialForm(siteId, deviceToEdit);
    }

    /** The reset effect, run when the dialog opens. */
    method Reset()
      modifies this
      ensures form == InitialForm(siteId, deviceToEdit)
      ensures open == old(open) && loading == old(loading)
    {
      form := InitialForm(siteId, deviceToEdit);
    }

    method Change(field: Field, value: string)
      modifies this
      ensures form == SetField(old(form), field, value)
      ensures open == old(open) && loading == old(loading)
    {
      form := SetField(form, field, value);
    }

    /** `handleSubmit`, given the outcome of the call it makes. */
    method HandleSubmit(outcome: Outcome<ApiDevice>) returns (effect: Effect)
      modifies this
      ensures effect == SubmitEffect(deviceToEdit, old(form), outcome)
      ensures open == (old(open) && !effect.closes)
      ensures !loading && form == old(form)
    {
      loading := true;
      effect := SubmitEffect(deviceToEdit, form, outcome);
      if effect.closes {
        open := false;
      }
      loading := false;
    }

    /** The form's submit event: the browser runs `handleSubmit` only when
        every required input is filled, and otherwise nothing happens. */
    method Submit(outcome: Outcome<ApiDevice>) returns (effect: Option<Effect>)
      modifies this
      ensures !RequiredFilled(old(form)) ==>
                effect.None? && open == old(open) && loading == old(loading) && form == old(form)
      ensures RequiredFilled(old(form)) ==>
                effect == Some(SubmitEffect(deviceToEdit, old(form), outcome))
                && open == (old(open) && !effect.value.closes) && !loading && form == old(form)
    {
      if RequiredFilled(form) {
        var e := HandleSubmit(outcome);
        effect := Some(e);
      } else {
        effect := None;
      }
    }
  }
}
