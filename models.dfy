/** The database records.  `User` is the one model whose definition is
    shown; `Provider`, `Customer`, `Service` and `Booking` carry the columns
    the request handlers read and write.  A column a handler may set from
    a request body holds a JSON `Value`. */
module Models {
  import opened Wrappers
  import opened Json

  /** The `user` table; `id` is the primary key. */
  datatype User = User(id: nat, fullName: Value, email: Value, password: Value, role: Value, isActive: Value)

  /** A new row; `is_active` takes its column default, true. */
  function NewUser(id: nat, fullName: Value, email: Value, password: Value, role: Value): (u: User)
    ensures u.isActive == Bool(true)
    ensures u.id == id && u.fullName == fullName && u.email == email && u.password == password && u.role == role
  {
    User(id, fullName, email, password, role, Bool(true))
  }

  /** `User.serialize`: exactly the identity, name, e-mail and role, never
      the password or the active flag. */
  function Serialize(u: User): (m: map<string, Value>)
    ensures m.Keys == {"id", "full_name", "email", "role"}
    ensures m["id"] == Num(u.id) && m["full_name"] == u.fullName && m["email"] == u.email && m["role"] == u.role
    ensures "password" !in m && "is_active" !in m
  {
    map["id" := Num(u.id), "full_name" := u.fullName, "email" := u.email, "role" := u.role]
  }

  /** The `unique=True` constraint on `email`. */
  predicate UniqueEmails(users: seq<User>)
  {
    forall i, j :: 0 <= i < j < |users| ==> users[i].email != users[j].email
  }

  /** A provider profile, linked to its user by `userId`. */
  datatype Provider = Provider(
    id: nat, userId: nat, name: Value, businessName: Value, phone: Value, description: Value,
    address: Value, city: Value, state: Value, zipCode: Value, rating: Value)

  /** A customer profile, linked to its user by `userId`. */
  datatype Customer = Customer(id: nat, userId: nat, name: Value)

  /** A service a provider offers. */
  datatype Service = Service(
    id: nat, providerId: nat, name: Value, description: Value, category: Value,
    price: Value, duration: Value, isActive: Value)

  /** A booking; `bookingDate` is a day number as Python's `date.toordinal`,
      `bookingTime` a time of day, `totalPrice` an amount in cents and
      `updatedAt` a timestamp. */
  datatype Booking = Booking(
    id: nat, providerId: nat, customerId: nat, status: string,
    bookingDate: int, bookingTime: int, totalPrice: nat, updatedAt: int)

  /** The position of the first row satisfying `p`, as `query.filter_by(...).first()`. */
  function FirstWhere<T>(rows: seq<T>, p: T -> bool): (r: Option<nat>)
    ensures r.Some? ==> r.value < |rows| && p(rows[r.value]) && forall k :: 0 <= k < r.value ==> !p(rows[k])
    ensures r.None? ==> forall k :: 0 <= k < |rows| ==> !p(rows[k])
  {
    if rows == [] then None
    else if p(rows[0]) then Some(0)
    else match FirstWhere(rows[1..], p)
      case None => None
      case Some(k) => Some(k + 1)
  }
}
