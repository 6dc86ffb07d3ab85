/** Shapes of the records the directory works on: the user record fetched from
    the random-user source, and the marker ("user point") the map draws for it. */
module Types {

  datatype Option<T> = None | Some(value: T)

  datatype Gender = Male | Female

  datatype Name = Name(title: string, first: string, last: string)

  /** Coordinates arrive as decimal strings; they are kept as text (see Coordinate). */
  datatype Coordinates = Coordinates(latitude: string, longitude: string)

  datatype Timezone = Timezone(offset: string, description: string)

  datatype Street = Street(name: string, number: int)

  datatype Location = Location(
    street: Street,
    city: string,
    state: string,
    postcode: string,
    coordinates: Coordinates,
    timezone: Timezone)

  datatype Login = Login(
    uuid: string,
    username: string,
    password: string,
    salt: string,
    md5: string,
    sha1: string,
    sha256: string)

  /** `date` is a calendar date; it is only carried around, so it stays text. */
  datatype Dob = Dob(date: string, age: int)

  datatype ID = ID(name: string, value: string)

  datatype Picture = Picture(large: string, medium: string, thumbnail: string)

  /** A user record. `isSelected` is optional in the record type: records from the
      source carry no flag (None) until the first selection writes one. */
  datatype User = User(
    gender: Gender,
    name: Name,
    location: Location,
    email: string,
    login: Login,
    dob: Dob,
    registered: Dob,
    phone: string,
    cell: string,
    id: ID,
    picture: Picture,
    nat: string,
    isSelected: Option<bool>)

  /** JavaScript truthiness of an optional boolean: only an explicit `true` is truthy. */
  predicate Truthy(flag: Option<bool>) {
    flag == Some(true)
  }

  /** A map coordinate. `Origin` is the literal [0, 0] the view starts at; `LonLat`
      stands for the pair of numbers parsed from a user's coordinate strings, which
      this model keeps unparsed (positions are opaque values). */
  datatype Coordinate = Origin | LonLat(longitude: string, latitude: string)

  /** The position a user is drawn at and centred on: (longitude, latitude). */
  function PositionOf(u: User): Coordinate {
    LonLat(u.location.coordinates.longitude, u.location.coordinates.latitude)
  }

  /** A map marker: where to draw it, whether it is highlighted, and the id of the
      user it stands for (a lookup key, not ownership). */
  datatype UserPoint = UserPoint(position: Coordinate, isSelected: Option<bool>, refUser: string)

  /** A transient notification shown to the person using the page. */
  datatype Variant = ErrorVariant | SuccessVariant
  datatype Notice = Notice(message: string, variant: Variant)

  /** `list.some(u => u.email === email)`. */
  predicate HasEmail(users: seq<User>, email: string) {
    exists i :: 0 <= i < |users| && users[i].email == email
  }

  /** No two records share an email (the source does not enforce this). */
  ghost predicate UniqueEmails(users: seq<User>) {
    forall i, j :: 0 <= i < j < |users| ==> users[i].email != users[j].email
  }
}
