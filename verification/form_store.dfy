/**
 * stores/form-store.ts: the state of the add/edit user form: the field values,
 * the chosen image files, a few UI flags and, in edit mode, the values the
 * record had when it was loaded. Each setter overwrites fields of the store.
 */
module FormStore {
  import opened Common

  /** `ImageInputFile`: the picked file's data URL, if any (the `File` object itself is not modelled). */
  datatype ImageFile = ImageFile(dataURL: Option<string>)

  datatype OriginalValues = OriginalValues(email: string, isdCode: string, countryId: string, mobileNumber: string)

  /** `Partial<originalValues>`: the keys a caller passes. */
  datatype OriginalPatch = OriginalPatch(
    email: Option<string>, isdCode: Option<string>, countryId: Option<string>, mobileNumber: Option<string>)

  /** The names of the fields `setField` may write. */
  datatype Field =
    | FirstName | LastName | Email | Password | MobileNumber | IsdCode | CountryId
    | Role | Status | ClientId | BusinessUnitId | Image | ImageFiles
    | CountrySearch | SelectIsdOpen | DataLoading | Submitting | Originals

  /** A value of one of the fields' types. */
  datatype FieldValue =
    | Text(text: string)
    | Picked(image: Option<ImageFile>)
    | Files(files: seq<ImageFile>)
    | Flag(on: bool)
    | Recorded(originals: OriginalValues)

  /** The TypeScript signature of `setField`: the value has the field's type. */
  predicate Fits(f: Field, v: FieldValue) {
    match f
    case Image => v.Picked?
    case ImageFiles => v.Files?
    case SelectIsdOpen | DataLoading | Submitting => v.Flag?
    case Originals => v.Recorded?
    case _ => v.Text?
  }

  /** A snapshot of the form's data fields. */
  datatype FormState = FormState(
    firstName: string, lastName: string, email: string, password: string,
    mobileNumber: string, isdCode: string, countryId: string, role: string,
    status: string, clientId: string, businessUnitId: string,
    image: Option<ImageFile>, imageFiles: seq<ImageFile>,
    countrySearch: string, selectIsdOpen: bool, dataLoading: bool, submitting: bool,
    originalValues: OriginalValues)

  const ActiveStatus := "active"
  const EmptyOriginals := OriginalValues("", "", "", "")

  /** `initialFormState`. */
  const InitialForm := FormState("", "", "", "", "", "", "", "", ActiveStatus, "", "",
                                 None, [], "", false, false, false, EmptyOriginals)

  /** The value of field `f` in `s`. */
  function Read(s: FormState, f: Field): (v: FieldValue)
    ensures Fits(f, v)
  {
    match f
    case FirstName => Text(s.firstName)
    case LastName => Text(s.lastName)
    case Email => Text(s.email)
    case Password => Text(s.password)
    case MobileNumber => Text(s.mobileNumber)
    case IsdCode => Text(s.isdCode)
    case CountryId => Text(s.countryId)
    case Role => Text(s.role)
    case Status => Text(s.status)
    case ClientId => Text(s.clientId)
    case BusinessUnitId => Text(s.businessUnitId)
    case Image => Picked(s.image)
    case ImageFiles => Files(s.imageFiles)
    case CountrySearch => Text(s.countrySearch)
    case SelectIsdOpen => Flag(s.selectIsdOpen)
    case DataLoading => Flag(s.dataLoading)
    case Submitting => Flag(s.submitting)
    case Originals => Recorded(s.originalValues)
  }

  /** `set({ [field]: value })`: the written field reads `v`, every other field reads as before. */
  function Write(s: FormState, f: Field, v: FieldValue): (r: FormState)
    requires Fits(f, v)
    ensures Read(r, f) == v
    ensures forall g :: g != f ==> Read(r, g) == Read(s, g)
  {
    match f
    case FirstName => s.(firstName := v.text)
    case LastName => s.(lastName := v.text)
    case Email => s.(email := v.text)
    case Password => s.(password := v.text)
    case MobileNumber => s.(mobileNumber := v.text)
    case IsdCode => s.(isdCode := v.text)
    case CountryId => s.(countryId := v.text)
    case Role => s.(role := v.text)
    case Status => s.(status := v.text)
    case ClientId => s.(clientId := v.text)
    case BusinessUnitId => s.(businessUnitId := v.text)
    case Image => s.(image := v.image)
    case ImageFiles => s.(imageFiles := v.files)
    case CountrySearch => s.(countrySearch := v.text)
    case SelectIsdOpen => s.(selectIsdOpen := v.on)
    case DataLoading => s.(dataLoading := v.on)
    case Submitting => s.(submitting := v.on)
    case Originals => s.(originalValues := v.originals)
  }

  /** Two snapshots that read alike on every field are the same snapshot. */
  lemma ReadDetermines(s: FormState, t: FormState)
    requires forall f :: Read(s, f) == Read(t, f)
    ensures s == t
  {
    SamePersonalFields(s, t);
    SameAccountFields(s, t);
    SameUiFields(s, t);
  }

  /** Reading alike determines the names, email, password, mobile number and ISD code. */
  lemma SamePersonalFields(s: FormState, t: FormState)
    requires forall f :: Read(s, f) == Read(t, f)
    ensures s.firstName == t.firstName && s.lastName == t.lastName && s.email == t.email && s.password == t.password && s.mobileNumber == t.mobileNumber && s.isdCode == t.isdCode
  {
    assert Read(s, FirstName) == Read(t, FirstName);
    assert Read(s, LastName) == Read(t, LastName);
    assert Read(s, Email) == Read(t, Email);
    assert Read(s, Password) == Read(t, Password);
    assert Read(s, MobileNumber) == Read(t, MobileNumber);
    assert Read(s, IsdCode) == Read(t, IsdCode);
  }

  /** Reading alike determines the country, role, status, client, business unit and image. */
  lemma SameAccountFields(s: FormState, t: FormState)
    requires forall f :: Read(s, f) == Read(t, f)
    ensures s.countryId == t.countryId && s.role == t.role && s.status == t.status && s.clientId == t.clientId && s.businessUnitId == t.businessUnitId && s.image == t.image
  {
    assert Read(s, CountryId) == Read(t, CountryId);
    assert Read(s, Role) == Read(t, Role);
    assert Read(s, Status) == Read(t, Status);
    assert Read(s, ClientId) == Read(t, ClientId);
    assert Read(s, BusinessUnitId) == Read(t, BusinessUnitId);
    assert Read(s, Image) == Read(t, Image);
  }

  /** Reading alike determines the image files, UI flags and original values. */
  lemma SameUiFields(s: FormState, t: FormState)
    requires forall f :: Read(s, f) == Read(t, f)
    ensures s.imageFiles == t.imageFiles && s.countrySearch == t.countrySearch && s.selectIsdOpen == t.selectIsdOpen && s.dataLoading == t.dataLoading && s.submitting == t.submitting && s.originalValues == t.originalValues
  {
    assert Read(s, ImageFiles) == Read(t, ImageFiles);
    assert Read(s, CountrySearch) == Read(t, CountrySearch);
    assert Read(s, SelectIsdOpen) == Read(t, SelectIsdOpen);
    assert Read(s, DataLoading) == Read(t, DataLoading);
    assert Read(s, Submitting) == Read(t, Submitting);
    assert Read(s, Originals) == Read(t, Originals);
  }

  /** Writing a field back with the value it already holds changes nothing. */
  lemma WriteSameValue(s: FormState, f: Field)
    ensures Write(s, f, Read(s, f)) == s
  {
    var r := Write(s, f, Read(s, f));
    forall g ensures Read(r, g) == Read(s, g) {
    }
    ReadDetermines(r, s);
  }

  /** The second of two writes to the same field wins. */
  lemma WriteTwice(s: FormState, f: Field, v: FieldValue, w: FieldValue)
    requires Fits(f, v) && Fits(f, w)
    ensures Write(Write(s, f, v), f, w) == Write(s, f, w)
  {
    var a := Write(Write(s, f, v), f, w);
    var b := Write(s, f, w);
    forall g ensures Read(a, g) == Read(b, g) {
    }
    ReadDetermines(a, b);
  }

  /** `{ ...state.originalValues, ...values }`. */
  function MergeOriginals(o: OriginalValues, p: OriginalPatch): (r: OriginalValues)
    ensures r.email == p.email.GetOr(o.email) && r.isdCode == p.isdCode.GetOr(o.isdCode)
    ensures r.countryId == p.countryId.GetOr(o.countryId) && r.mobileNumber == p.mobileNumber.GetOr(o.mobileNumber)
  {
    OriginalValues(p.email.GetOr(o.email), p.isdCode.GetOr(o.isdCode),
                   p.countryId.GetOr(o.countryId), p.mobileNumber.GetOr(o.mobileNumber))
  }

  /** Merging the same patch twice is merging it once; an empty patch keeps everything. */
  lemma MergeOriginalsIdempotent(o: OriginalValues, p: OriginalPatch)
    ensures MergeOriginals(MergeOriginals(o, p), p) == MergeOriginals(o, p)
    ensures MergeOriginals(o, OriginalPatch(None, None, None, None)) == o
  {
  }

  /** `files[0] || null`: the first picked file, or none for an empty list. */
  function FirstFile(files: seq<ImageFile>): (r: Option<ImageFile>)
    ensures r.None? <==> files == []
    ensures r.Some? ==> r.value == files[0]
  {
    if files == [] then None else Some(files[0])
  }

  /**
   * The store. Its state is the one object `set` merges into, so it is held
   * as a single `FormState` field that every action replaces.
   */
  class UserForm {
    var form: FormState

    constructor ()
      ensures form == InitialForm
    {
      form := InitialForm;
    }

    /** `setField(field, value)`: only `field` changes. */
    method SetField(f: Field, v: FieldValue)
      requires Fits(f, v)
      modifies this
      ensures form == Write(old(form), f, v)
    {
      form := Write(form, f, v);
    }

    /** `reset()`: every field back to its initial value. */
    method Reset()
      modifies this
      ensures form == InitialForm
      ensures form.status == ActiveStatus && form.firstName == "" && form.email == ""
      ensures form.image.None? && form.imageFiles == []
    {
      form := InitialForm;
    }

    /** `setOriginalValues(values)`: the given keys are replaced, the others kept. */
    method SetOriginalValues(values: OriginalPatch)
      modifies this
      ensures form == old(form).(originalValues := MergeOriginals(old(form.originalValues), values))
    {
      form := form.(originalValues := MergeOriginals(form.originalValues, values));
    }

    /** `setImageFiles(files)`: the list and, with it, the image: the first file or none. */
    method SetImageFiles(files: seq<ImageFile>)
      modifies this
      ensures form == old(form).(imageFiles := files, image := FirstFile(files))
    {
      form := form.(imageFiles := files, image := FirstFile(files));
    }

    method SetCountrySearch(search: string)
      modifies this
      ensures form == old(form).(countrySearch := search)
    {
      form := form.(countrySearch := search);
    }

    /** `setSelectIsdOpen(open)`: closing the ISD select also clears the country search. */
    method SetSelectIsdOpen(open: bool)
      modifies this
      ensures open ==> form == old(form).(selectIsdOpen := true)
      ensures !open ==> form == old(form).(selectIsdOpen := false, countrySearch := "")
    {
      form := form.(selectIsdOpen := open);
      if !open {
        form := form.(countrySearch := "");
      }
    }

    method SetDataLoading(loading: bool)
      modifies this
      ensures form == old(form).(dataLoading := loading)
    {
      form := form.(dataLoading := loading);
    }

    method SetSubmitting(value: bool)
      modifies this
      ensures form == old(form).(submitting := value)
    {
      form := form.(submitting := value);
    }
  }
}
