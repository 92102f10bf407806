/** The persisted user: profile defaults, length limits and the sparse unique phone. */
module UserModel {
  import opened Common
  import opened Text

  const DefaultAbout: string := "Hey there! I am using WhatsApp."
  const NameMaxLength: nat := 50
  const AboutMaxLength: nat := 140

  datatype User = User(
    id: ObjectId,
    phone: Option<string>,
    name: string,
    avatar: string,
    about: string,
    isProfileComplete: bool,
    isOnline: bool,
    lastSeen: Millis)

  /** What a save accepts: the `maxlength` validators on name and about. */
  predicate ValidUser(u: User) {
    |u.name| <= NameMaxLength && |u.about| <= AboutMaxLength
  }

  /** `User.create({ phone })`: the trim setter on phone, every other field at its default. */
  function NewUser(id: ObjectId, phone: string, now: Millis): (u: User)
    ensures u.id == id && u.phone == Some(Trim(phone))
    ensures u.name == "" && u.avatar == "" && u.about == DefaultAbout
    ensures !u.isProfileComplete && !u.isOnline && u.lastSeen == now
    ensures ValidUser(u)
  {
    User(id, Some(Trim(phone)), "", "", DefaultAbout, false, false, now)
  }

  /** Assigning `name` goes through the schema's trim setter. */
  function SetName(u: User, raw: string): (r: User)
    ensures r.name == Trim(raw) && r.(name := u.name) == u
  {
    u.(name := Trim(raw))
  }

  /** The sparse unique index on phone: no two users that have a phone share it. */
  predicate PhonesUnique(users: seq<User>) {
    forall i, j :: 0 <= i < j < |users| && users[i].phone.Some? ==> users[i].phone != users[j].phone
  }

  /** The position in `users` of a user with this phone, if there is one (the last such). */
  function FindByPhone(users: seq<User>, phone: string): (r: Option<nat>)
    ensures r.Some? ==> r.value < |users| && users[r.value].phone == Some(phone)
    ensures r.None? ==> forall i :: 0 <= i < |users| ==> users[i].phone != Some(phone)
  {
    if users == [] then None
    else if users[|users| - 1].phone == Some(phone) then Some(|users| - 1)
    else FindByPhone(users[..|users| - 1], phone)
  }

  /** Appending a user whose phone nobody has keeps the index unique. */
  lemma AppendKeepsPhonesUnique(users: seq<User>, u: User)
    requires PhonesUnique(users)
    requires u.phone.Some? ==> FindByPhone(users, u.phone.value).None?
    ensures PhonesUnique(users + [u])
  {
  }
}
