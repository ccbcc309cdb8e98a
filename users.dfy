/** The parts of Django's `User` and of the storefront's `Address` that
    the modelled views read or write. */
module Users {
  import opened Basics
  import opened Text

  datatype User = User(
    id: int,
    username: string,
    email: string,
    firstName: string,
    lastName: string,
    isActive: bool,
    isStaff: bool,
    hasUsablePassword: bool)

  /** `get_full_name()`: first and last name joined by a space, stripped.
      The result never starts or ends with whitespace and is the joined
      names less their leading and trailing whitespace; it is empty exactly
      when both names are blank, which is when the callers fall back to the
      username. */
  function FullName(u: User): (r: string)
    ensures r != [] ==> !IsSpace(Python, r[0]) && !IsSpace(Python, r[|r| - 1])
    ensures Contains(u.firstName + " " + u.lastName, r)
    ensures Stripped(Python, u.firstName + " " + u.lastName, r)
    ensures r == "" <==> Blank(Python, u.firstName) && Blank(Python, u.lastName)
  {
    TrimIsPiece(Python, u.firstName + " " + u.lastName);
    TrimJoinedEmpty(Python, u.firstName, u.lastName);
    Trim(Python, u.firstName + " " + u.lastName)
  }

  /** An `Address` row; `updatedAt` is the instant of its last save. */
  datatype Address = Address(
    id: int,
    userId: int,
    fullName: string,
    phone: string,
    line1: string,
    line2: string,
    city: string,
    state: string,
    postalCode: string,
    country: string,
    isDefault: bool,
    updatedAt: int)
}
