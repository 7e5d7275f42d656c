/**
 * The profile picker: the guard on creating a named profile, the guest
 * profile a click creates, the list of existing guest profiles, and the
 * "last seen" caption.
 *
 * `Math.random()` is replaced by the reals `r1` and `r2` in [0, 1), and the
 * browser's locale date formatting by the parameter `localeDate`.
 */
module UserSelection {
  import opened Tables
  import opened Schema

  // ---------------------------------------------------------------------
  // Named profiles
  // ---------------------------------------------------------------------

  /**
   * The code points `String.prototype.trim` removes: the ECMAScript
   * WhiteSpace set (tab, vertical tab, form feed, the byte order mark and
   * every space separator) and the LineTerminator set.
   */
  predicate IsTrimmable(c: char) {
    || c == '\t' || c == '\U{000B}' || c == '\U{000C}' || c == '\U{FEFF}'
    || c == ' ' || c == '\U{00A0}' || c == '\U{1680}' || ('\U{2000}' <= c <= '\U{200A}')
    || c == '\U{202F}' || c == '\U{205F}' || c == '\U{3000}'
    || c == '\n' || c == '\r' || c == '\U{2028}' || c == '\U{2029}'
  }

  /** `s` without its leading trimmable characters. */
  function TrimStart(s: string): (r: string)
    ensures exists k :: 0 <= k <= |s| && r == s[k..] && forall i :: 0 <= i < k ==> IsTrimmable(s[i])
    ensures r != [] ==> !IsTrimmable(r[0])
    decreases |s|
  {
    if s != [] && IsTrimmable(s[0]) then
      var r := TrimStart(s[1..]);
      var k :| 0 <= k <= |s[1..]| && r == s[1..][k..] && forall i :: 0 <= i < k ==> IsTrimmable(s[1..][i]);
      assert r == s[k + 1..];
      assert forall i :: 0 <= i < k + 1 ==> IsTrimmable(s[i]) by {
        forall i | 0 <= i < k + 1 ensures IsTrimmable(s[i]) {
          if i > 0 { assert s[i] == s[1..][i - 1]; }
        }
      }
      r
    else
      assert s == s[0..];
      s
  }

  /** `s` without its trailing trimmable characters. */
  function TrimEnd(s: string): (r: string)
    ensures exists k :: 0 <= k <= |s| && r == s[..k] && forall i :: k <= i < |s| ==> IsTrimmable(s[i])
    ensures r != [] ==> !IsTrimmable(r[|r| - 1])
    decreases |s|
  {
    if s != [] && IsTrimmable(s[|s| - 1]) then
      var init := s[..|s| - 1];
      var r := TrimEnd(init);
      var k :| 0 <= k <= |init| && r == init[..k] && forall i :: k <= i < |init| ==> IsTrimmable(init[i]);
      assert r == s[..k];
      r
    else
      assert s == s[..|s|];
      s
  }

  /** `String.prototype.trim`. */
  function Trim(s: string): (r: string) {
    TrimEnd(TrimStart(s))
  }

  /** Trimming leaves nothing exactly when every character is trimmable. */
  lemma TrimEmpty(s: string)
    ensures Trim(s) == [] <==> forall i :: 0 <= i < |s| ==> IsTrimmable(s[i])
  {
    var t := TrimStart(s);
    var k :| 0 <= k <= |s| && t == s[k..] && forall i :: 0 <= i < k ==> IsTrimmable(s[i]);
    var m :| 0 <= m <= |t| && Trim(s) == t[..m] && forall i :: m <= i < |t| ==> IsTrimmable(t[i]);
    if Trim(s) == [] {
      assert t == [];
    } else {
      assert t[0] == s[k] && !IsTrimmable(s[k]);
    }
  }

  /** The body of `POST /api/users`. */
  datatype NewUser = NewUser(name: string, age: int)

  /**
   * `handleCreateUser`: nothing (and a "Please enter a name" toast) when the
   * name is empty after trimming; otherwise the form as typed, the name not
   * trimmed.
   */
  function CreateUserRequest(form: NewUser): (r: Option<NewUser>)
    ensures r.None? <==> forall i :: 0 <= i < |form.name| ==> IsTrimmable(form.name[i])
    ensures r.Some? ==> r.value == form
  {
    TrimEmpty(form.name);
    if Trim(form.name) == [] then None else Some(form)
  }

  // ---------------------------------------------------------------------
  // Guest profiles
  // ---------------------------------------------------------------------

  const GuestNames: seq<string> := ["Guest Explorer", "Guest Learner", "Guest Student", "Guest Friend", "Guest Buddy"]

  const GuestPrefix: string := "Guest "

  /** The decimal digit for 0..9. */
  function Digit(d: nat): char
    requires d < 10
  {
    ('0' as int + d) as char
  }

  /** A template string's rendering of a non-negative integer: its decimal digits, no leading zero. */
  function DecimalString(n: nat): (s: string)
    ensures |s| >= 1 && (s[0] == '0' ==> n == 0)
    ensures forall i :: 0 <= i < |s| ==> '0' <= s[i] <= '9'
  {
    if n < 10 then [Digit(n)] else DecimalString(n / 10) + [Digit(n % 10)]
  }

  /** The value of a string of decimal digits. */
  function ParseDecimal(s: string): nat
    requires forall i :: 0 <= i < |s| ==> '0' <= s[i] <= '9'
  {
    if s == [] then 0 else 10 * ParseDecimal(s[..|s| - 1]) + (s[|s| - 1] as int - '0' as int)
  }

  /** Reading the digits back gives the number: the rendering loses nothing. */
  lemma {:induction false} DecimalRoundTrip(n: nat)
    ensures ParseDecimal(DecimalString(n)) == n
  {
    if n >= 10 {
      var s := DecimalString(n);
      assert s[..|s| - 1] == DecimalString(n / 10);
      DecimalRoundTrip(n / 10);
    }
  }

  /** Distinct numbers render differently. */
  lemma DecimalInjective(m: nat, n: nat)
    requires DecimalString(m) == DecimalString(n)
    ensures m == n
  {
    DecimalRoundTrip(m);
    DecimalRoundTrip(n);
  }

  /** `Math.floor(r * k)` for `r` in [0, 1) lies in 0..k-1. */
  lemma FloorBelow(r: real, k: nat)
    requires 0.0 <= r < 1.0 && k > 0
    ensures 0 <= (r * k as real).Floor < k
  {
    assert r * k as real < k as real by {
      assert (1.0 - r) * k as real > 0.0;
    }
  }

  /**
   * `handleCreateNewGuest`'s name: one of the five guest names, a space, and
   * `Math.floor(r2 * 999) + 1`.
   */
  function GuestName(r1: real, r2: real): (name: string)
    requires 0.0 <= r1 < 1.0 && 0.0 <= r2 < 1.0
    ensures exists k, n :: 0 <= k < 5 && 1 <= n <= 999 && name == GuestNames[k] + " " + DecimalString(n)
  {
    FloorBelow(r1, 5);
    FloorBelow(r2, 999);
    GuestNames[(r1 * 5.0).Floor] + " " + DecimalString((r2 * 999.0).Floor + 1)
  }

  /** The profile a guest click asks for: a guest name, age 5. */
  function GuestRequest(r1: real, r2: real): (u: NewUser)
    requires 0.0 <= r1 < 1.0 && 0.0 <= r2 < 1.0
    ensures u.age == 5 && GuestPrefix <= u.name
    ensures CreateUserRequest(u) == Some(u)
  {
    var name := GuestName(r1, r2);
    var k, n :| 0 <= k < 5 && 1 <= n <= 999 && name == GuestNames[k] + " " + DecimalString(n);
    assert GuestPrefix <= GuestNames[k];
    assert name[0] == 'G' && !IsTrimmable(name[0]);
    NewUser(name, 5)
  }

  /** Whether a profile counts as a guest: its name starts with "Guest ". */
  function IsGuest(u: User): bool {
    GuestPrefix <= u.name
  }

  /** `guestUsers`: the guest profiles among the loaded users, in their order; none while loading. */
  function GuestUsers(users: Option<seq<User>>): (r: seq<User>)
    ensures users.None? ==> r == []
    ensures users.Some? ==> r == Filter(users.value, IsGuest)
    ensures forall u :: u in r <==> users.Some? && u in users.value && GuestPrefix <= u.name
  {
    match users
    case None => []
    case Some(us) => Filter(us, IsGuest)
  }

  /** A profile created from a guest click shows up among the guests once the users are loaded. */
  lemma GuestIsListed(r1: real, r2: real, users: seq<User>, u: User)
    requires 0.0 <= r1 < 1.0 && 0.0 <= r2 < 1.0
    requires u in users && u.name == GuestRequest(r1, r2).name
    ensures u in GuestUsers(Some(users))
  {
  }

  // ---------------------------------------------------------------------
  // Captions
  // ---------------------------------------------------------------------

  /** `formatLastActive`: "New user" for a profile never active, else "Last seen: " and the locale date. */
  function FormatLastActive(lastActive: Option<int>, localeDate: int -> string): (caption: string)
    ensures caption == "New user" <==> lastActive.None?
    ensures lastActive.Some? ==> caption == "Last seen: " + localeDate(lastActive.value)
  {
    match lastActive
    case None => "New user"
    case Some(day) =>
      var caption := "Last seen: " + localeDate(day);
      assert caption[0] != "New user"[0];
      caption
  }
}
