/**
 * What a valid submit sends and where a successful one leads: the request
 * payload built from the form, the creation service's answer, the
 * notification shown and the path of the page navigated to.
 */
module FacilitySubmission {
  import opened FacilityForm

  datatype Option<T> = None | Some(value: T)

  /** The nested `location` object of the payload. */
  datatype Location = Location(latitude: string, longitude: string)

  /** The object handed to the creation service. `facilityType` is the
      hospital entry's identifier from the facility-type table. */
  datatype Payload = Payload(
    facilityType: int,
    name: string,
    district: string,
    address: string,
    location: Location,
    phoneNumber: string)

  /** The creation service's answer: either it carries `data` with the new
      facility's identifier (in the textual form it takes inside a path), or
      it carries no `data`. */
  datatype Response = Data(id: string) | NoData

  /** The `{show, message, type}` notification state. */
  datatype AppMessage = AppMessage(show: bool, message: string, kind: string)

  const HiddenMessage: AppMessage := AppMessage(false, "", "")
  const SuccessMessage: AppMessage := AppMessage(true, "Facility Added Successfully", "success")

  /** The form values a payload carries, read back out of it. */
  function FormOf(p: Payload): Fields
  {
    Fields(p.name, p.district, p.address, p.phoneNumber, p.location.latitude, p.location.longitude)
  }

  /** The payload of a valid submit: the fixed facility type, the four text
      fields copied, and the two coordinates nested under `location`. Every
      form value reaches the service unchanged. */
  function BuildPayload(form: Fields, hospitalType: int): (p: Payload)
    ensures p.facilityType == hospitalType
    ensures FormOf(p) == form
    ensures p.location == Location(form.latitude, form.longitude)
  {
    Payload(hospitalType, form.name, form.district, form.address,
            Location(form.latitude, form.longitude), form.phoneNumber)
  }

  const PathPrefix: string := "/facility/"
  const PathSuffix: string := "/bed/add"

  /** The identifier a bed-add path names, if it has that shape. */
  function IdFromPath(path: string): Option<string>
  {
    if |path| >= |PathPrefix| + |PathSuffix|
       && path[..|PathPrefix|] == PathPrefix
       && path[|path| - |PathSuffix|..] == PathSuffix
    then Some(path[|PathPrefix|..|path| - |PathSuffix|])
    else None
  }

  /** The page a successful submit navigates to: the new facility's
      bed-add page, from which its identifier can be read back. */
  function BedAddPath(id: string): (path: string)
    ensures |path| == |PathPrefix| + |id| + |PathSuffix|
    ensures path[..|PathPrefix|] == PathPrefix
    ensures path[|path| - |PathSuffix|..] == PathSuffix
    ensures IdFromPath(path) == Some(id)
  {
    var path := PathPrefix + id + PathSuffix;
    assert path[..|PathPrefix|] == PathPrefix;
    assert path[|path| - |PathSuffix|..] == PathSuffix;
    assert path[|PathPrefix|..|path| - |PathSuffix|] == id;
    path
  }

  /** Different facilities lead to different pages. */
  lemma BedAddPathInjective(a: string, b: string)
    ensures BedAddPath(a) == BedAddPath(b) <==> a == b
  {
  }
}
