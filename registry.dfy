/**
 * The connection registry of backend/index.js: the records `register-presence`
 * stores in `browsingUsers` and `join` stores in `videoChatUsers`, and the
 * validation `join` performs first.
 */
module Registry {
  import opened Wrappers
  import opened Types

  const DEFAULT_AGE := 25
  const DEFAULT_GENDER := "other"
  const DEFAULT_COUNTRY := "Unknown"
  /**
   * The default flag exactly as the source literal holds it: the three
   * characters U+00F0 U+0178 U+0152, a globe emoji that was mis-encoded.
   */
  const DEFAULT_FLAG := "\U{00F0}\U{0178}\U{0152}"
  const DEFAULT_MODE := "friendship"
  const INVALID_USER_DATA := "Invalid user data"

  /** JavaScript truthiness of an optional string: present and not "". */
  predicate TruthyString(s: Option<string>) {
    s.Some? && s.value != ""
  }

  /** JavaScript truthiness of an optional number: present and not 0. */
  predicate TruthyNumber(n: Option<int>) {
    n.Some? && n.value != 0
  }

  /** `s || d` on a string field. */
  function StringOr(s: Option<string>, d: string): string {
    if TruthyString(s) then s.value else d
  }

  /** `xs || []` on an array field: every array, even an empty one, is truthy. */
  function ListOr(xs: Option<seq<string>>): seq<string> {
    if xs.Some? then xs.value else []
  }

  /** What a template literal `${name}` prints for a possibly missing name. */
  function NameText(name: Option<string>): string {
    if name.Some? then name.value else "undefined"
  }

  /**
   * The check `join` makes: name, age and gender must all be truthy. The
   * falsy values are a missing field, the empty string and the number 0.
   */
  predicate CanJoin(d: UserData): (r: bool)
    ensures r <==> d.name !in {None, Some("")} && d.age !in {None, Some(0)} && d.gender !in {None, Some("")}
  {
    TruthyString(d.name) && TruthyNumber(d.age) && TruthyString(d.gender)
  }

  predicate IsUpper(c: char) {
    'A' <= c <= 'Z'
  }

  function LowerChar(c: char): char {
    if IsUpper(c) then (c as int + 32) as char else c
  }

  /** `String.prototype.toLowerCase`, on the ASCII letters. */
  function ToLower(s: string): (r: string)
    ensures |r| == |s|
    ensures forall i :: 0 <= i < |r| ==> !IsUpper(r[i])
    ensures forall i :: 0 <= i < |s| && !IsUpper(s[i]) ==> r[i] == s[i]
    ensures forall i :: 0 <= i < |s| && IsUpper(s[i]) ==> r[i] as int == s[i] as int + 32
  {
    if s == [] then [] else [LowerChar(s[0])] + ToLower(s[1..])
  }

  /** The record `join` stores for a connection whose data passed `CanJoin`. */
  function JoinProfile(id: ConnId, d: UserData): (p: Profile)
    requires CanJoin(d)
    ensures p.id == id && p.name == d.name && p.age == d.age.value
    ensures p.name.Some? && p.name.value != "" && p.age != 0
    ensures p.gender == ToLower(d.gender.value) && |p.gender| == |d.gender.value| > 0
    ensures p.lastSeen.None?
    ensures p.interests == ListOr(d.interests) && p.values == ListOr(d.values)
    ensures p.personalityTags == ListOr(d.personalityTags)
    ensures p.bio == StringOr(d.bio, "")
    ensures p.country == StringOr(d.country, DEFAULT_COUNTRY)
    ensures p.flag == StringOr(d.flag, DEFAULT_FLAG) && p.mode == StringOr(d.mode, DEFAULT_MODE)
  {
    Profile(id, d.name, d.age.value, ToLower(d.gender.value),
            ListOr(d.interests), ListOr(d.values), ListOr(d.personalityTags),
            StringOr(d.bio, ""), StringOr(d.country, DEFAULT_COUNTRY),
            StringOr(d.flag, DEFAULT_FLAG), StringOr(d.mode, DEFAULT_MODE), None)
  }

  /**
   * The record `register-presence` stores: nothing is validated, the name is
   * kept as given and every other missing or falsy field gets its default.
   */
  function PresenceProfile(id: ConnId, d: UserData, now: int): (p: Profile)
    ensures p.id == id && p.name == d.name && p.lastSeen == Some(now)
    ensures p.age != 0 && (TruthyNumber(d.age) ==> p.age == d.age.value)
    ensures p.gender != "" && (TruthyString(d.gender) ==> p.gender == d.gender.value)
    ensures !TruthyNumber(d.age) ==> p.age == DEFAULT_AGE
    ensures !TruthyString(d.gender) ==> p.gender == DEFAULT_GENDER
    ensures TruthyString(d.bio) ==> p.bio == d.bio.value
    ensures !TruthyString(d.bio) ==> p.bio == "Hi, I'm " + NameText(d.name) + "!"
    ensures p.interests == ListOr(d.interests) && p.values == ListOr(d.values)
    ensures p.personalityTags == ListOr(d.personalityTags)
    ensures p.country == StringOr(d.country, DEFAULT_COUNTRY)
    ensures p.flag == StringOr(d.flag, DEFAULT_FLAG) && p.mode == StringOr(d.mode, DEFAULT_MODE)
  {
    Profile(id, d.name, if TruthyNumber(d.age) then d.age.value else DEFAULT_AGE,
            StringOr(d.gender, DEFAULT_GENDER),
            ListOr(d.interests), ListOr(d.values), ListOr(d.personalityTags),
            StringOr(d.bio, "Hi, I'm " + NameText(d.name) + "!"),
            StringOr(d.country, DEFAULT_COUNTRY), StringOr(d.flag, DEFAULT_FLAG),
            StringOr(d.mode, DEFAULT_MODE), Some(now))
  }
}
