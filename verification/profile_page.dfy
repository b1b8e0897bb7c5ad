/** The profile page: the redirect for signed-out visitors, the contact
    form and its update payload, and the text the page renders for the
    user's city and for each past order. */
module ProfilePage {
  import opened Common
  import opened Text
  import opened AuthStore

  datatype ProfileForm = ProfileForm(phone: string, address: string, city: string, pincode: string)

  datatype Field = Phone | Address | City | Pincode

  function GetField(f: ProfileForm, name: Field): string {
    match name
    case Phone => f.phone
    case Address => f.address
    case City => f.city
    case Pincode => f.pincode
  }

  /** What the mount effect does: send the visitor to `/login`, or load the
      form and fetch the orders of the user with this id. */
  datatype Effect = RedirectToLogin | LoadProfile(form: ProfileForm, fetchOrdersOf: string)

  /** The form filled from the user, `''` for every missing value. */
  function FormFrom(u: User): (f: ProfileForm)
    ensures f.phone == u.phone.GetOr("") && f.address == u.address.GetOr("")
    ensures f.city == u.city.GetOr("") && f.pincode == u.pincode.GetOr("")
  {
    ProfileForm(u.phone.GetOr(""), u.address.GetOr(""), u.city.GetOr(""), u.pincode.GetOr(""))
  }

  /** The user's stored value behind each form field. */
  function Contact(u: User, g: Field): Option<string> {
    match g
    case Phone => u.phone
    case Address => u.address
    case City => u.city
    case Pincode => u.pincode
  }

  /** The mount effect: without an authenticated session and a user it only
      redirects; otherwise it loads that user's form and orders. */
  function MountEffect(s: AuthState): (e: Effect)
    ensures e == RedirectToLogin <==> !IsAuthenticated(s) || s.user.None?
    ensures e.LoadProfile? ==> e.form == FormFrom(s.user.value) && e.fetchOrdersOf == s.user.value.id
  {
    if !IsAuthenticated(s) || s.user.None? then RedirectToLogin
    else LoadProfile(FormFrom(s.user.value), s.user.value.id)
  }

  /** After `logout` the page always redirects. */
  lemma LoggedOutRedirects(s: AuthState)
    ensures MountEffect(Logout(s)) == RedirectToLogin
  {
  }

  /** `handleChange`: only the named field changes. */
  function SetField(f: ProfileForm, name: Field, value: string): (r: ProfileForm)
    ensures forall g :: GetField(r, g) == if g == name then value else GetField(f, g)
  {
    match name
    case Phone => f.(phone := value)
    case Address => f.(address := value)
    case City => f.(city := value)
    case Pincode => f.(pincode := value)
  }

  /** The body of `PUT /auth/profile/:id`. */
  datatype ProfilePayload = ProfilePayload(form: ProfileForm, name: string)

  /** The update carries the form and the user's stored name: the page has
      no name field, so no keystroke can change the name sent. */
  function UpdatePayload(f: ProfileForm, u: User): (r: ProfilePayload)
    ensures r.form == f && r.name == u.name
  {
    ProfilePayload(f, u.name)
  }

  lemma NameUnaffectedByForm(f: ProfileForm, g: Field, v: string, u: User)
    ensures UpdatePayload(SetField(f, g, v), u).name == UpdatePayload(f, u).name
  {
  }

  /** What the update sends after editing one field of the loaded form: the
      edited value there, and the user's stored value, or `''` when unset,
      in every other field. With no edit the user's contact details go back
      as loaded. */
  lemma UpdateAfterEdit(u: User, g: Field, v: string)
    ensures forall h :: GetField(UpdatePayload(FormFrom(u), u).form, h) == Contact(u, h).GetOr("")
    ensures forall h :: GetField(UpdatePayload(SetField(FormFrom(u), g, v), u).form, h)
                        == if h == g then v else Contact(u, h).GetOr("")
  {
  }

  /** A template literal renders a missing value as `null` (the server sends
      `null` for an unset column). */
  function Render(v: Option<string>): string {
    if v.Some? then v.value else "null"
  }

  /** The "City / Pincode" line: `city, pincode` when the city is set and
      non-empty, the dash otherwise. */
  function CityLine(u: User): (r: string)
    ensures u.city.Some? && u.city.value != "" ==>
              r == u.city.value + ", " + Render(u.pincode)
    ensures !(u.city.Some? && u.city.value != "") ==> r == "—"
  {
    if u.city.Some? && u.city.value != "" then u.city.value + ", " + Render(u.pincode) else "—"
  }

  /** The city line and the form agree: the dash is shown exactly when the
      form's city field loads empty, and otherwise the line starts with that
      field. */
  lemma CityLineMatchesForm(u: User)
    ensures CityLine(u) == "—" <==> GetField(FormFrom(u), City) == ""
    ensures GetField(FormFrom(u), City) != "" ==>
              |GetField(FormFrom(u), City)| <= |CityLine(u)|
              && CityLine(u)[..|GetField(FormFrom(u), City)|] == GetField(FormFrom(u), City)
  {
    var c := GetField(FormFrom(u), City);
    if c != "" {
      assert CityLine(u) == c + (", " + Render(u.pincode));
      assert |CityLine(u)| > 1;
    }
  }

  /** The order id as shown: `#` and the last eight characters. */
  function OrderIdLabel(id: string): (r: string)
    ensures |r| == 1 + (if |id| < 8 then |id| else 8)
    ensures r[0] == '#'
    ensures r[1..] == id[|id| - (|r| - 1)..]
  {
    "#" + TakeLast(id, 8)
  }

  /** Ids of at most eight characters are shown in full. */
  lemma ShortIdShownWhole(id: string)
    requires |id| <= 8
    ensures OrderIdLabel(id) == "#" + id
  {
  }

  /** The status badge: green for delivered, red for cancelled, orange for
      every other status text. */
  function StatusBadge(status: string): (t: Tone)
    ensures t == Green <==> status == "DELIVERED"
    ensures t == Red <==> status == "CANCELLED"
    ensures t == Orange <==> status != "DELIVERED" && status != "CANCELLED"
  {
    if status == "DELIVERED" then Green else if status == "CANCELLED" then Red else Orange
  }
}
