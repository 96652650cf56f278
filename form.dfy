/**
 * The six-field record behind the facility-creation form. The screen keeps
 * two of them: the values the user typed (`form`) and one message per field
 * (`errors`); both start as copies of the all-empty `initForm`.
 */
module FacilityForm {

  /** The names of the form's inputs. */
  datatype Field = Name | District | Address | PhoneNumber | Latitude | Longitude

  /** The order in which the fields are declared in `initForm`, which is the
      order in which the validator visits them. */
  const FieldOrder: seq<Field> := [Name, District, Address, PhoneNumber, Latitude, Longitude]

  /** One string per field. */
  datatype Fields = Fields(
    name: string,
    district: string,
    address: string,
    phoneNumber: string,
    latitude: string,
    longitude: string)
  {
    /** The value stored under field `f` (`record[f]`). */
    function Get(f: Field): string
    {
      match f
      case Name => name
      case District => district
      case Address => address
      case PhoneNumber => phoneNumber
      case Latitude => latitude
      case Longitude => longitude
    }

    /** A copy of this record in which field `f` holds `v` (`record[f] = v`). */
    function With(f: Field, v: string): (r: Fields)
      ensures r.Get(f) == v
      ensures forall g :: g != f ==> r.Get(g) == Get(g)
    {
      match f
      case Name => this.(name := v)
      case District => this.(district := v)
      case Address => this.(address := v)
      case PhoneNumber => this.(phoneNumber := v)
      case Latitude => this.(latitude := v)
      case Longitude => this.(longitude := v)
    }
  }

  /** `initForm`: every field empty. */
  const InitForm: Fields := Fields("", "", "", "", "", "")

  /** Two records are equal exactly when they agree on every field. */
  lemma FieldsEqual(a: Fields, b: Fields)
    ensures a == b <==> forall f :: a.Get(f) == b.Get(f)
  {
    if forall f :: a.Get(f) == b.Get(f) {
      assert a.Get(Name) == b.Get(Name) && a.Get(District) == b.Get(District);
      assert a.Get(Address) == b.Get(Address) && a.Get(PhoneNumber) == b.Get(PhoneNumber);
      assert a.Get(Latitude) == b.Get(Latitude) && a.Get(Longitude) == b.Get(Longitude);
    }
  }

  /** The validator's walk over `FieldOrder` visits every field. */
  lemma FieldOrderComplete(f: Field)
    ensures f in FieldOrder
  {
  }
}
