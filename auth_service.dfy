/** The mock authentication service: login and signup fabricate a user and a token and
    remember the submitted password in local storage; a password change checks against it. */
module AuthService {
  import opened JsValues
  import opened Browser

  predicate IsUpper(c: char) { 'A' <= c <= 'Z' }
  predicate IsLower(c: char) { 'a' <= c <= 'z' }
  predicate IsLetter(c: char) { IsUpper(c) || IsLower(c) }

  function LowerChar(c: char): (d: char)
    ensures !IsUpper(d) && (IsLetter(c) <==> IsLetter(d))
  {
    if IsUpper(c) then (c as int + 32) as char else c
  }

  function UpperChar(c: char): (d: char)
    ensures !IsLower(d) && (IsLetter(c) <==> IsLetter(d))
  {
    if IsLower(c) then (c as int - 32) as char else c
  }

  /** `s.toLowerCase()` on ASCII letters. */
  function ToLower(s: string): (r: string)
    ensures |r| == |s|
    ensures forall i :: 0 <= i < |s| ==> r[i] == LowerChar(s[i])
  {
    seq(|s|, i requires 0 <= i < |s| => LowerChar(s[i]))
  }

  /** `t` occurs in `s` starting at index `i`. */
  predicate OccursAt(s: string, t: string, i: int) {
    0 <= i && i + |t| <= |s| && s[i..i + |t|] == t
  }

  /** `s.includes(t)` */
  function Contains(s: string, t: string): (b: bool)
    ensures b <==> exists i :: OccursAt(s, t, i)
    decreases |s|
  {
    if |t| > |s| then false
    else if s[..|t|] == t then assert OccursAt(s, t, 0); true
    else
      var b := Contains(s[1..], t);
      assert b ==> exists i :: OccursAt(s, t, i) by {
        if b {
          var i :| OccursAt(s[1..], t, i);
          assert s[i + 1..i + 1 + |t|] == s[1..][i..i + |t|];
          assert OccursAt(s, t, i + 1);
        }
      }
      assert (exists i :: OccursAt(s, t, i)) ==> b by {
        if i :| OccursAt(s, t, i) {
          assert i != 0;
          assert s[1..][i - 1..i - 1 + |t|] == s[i..i + |t|];
          assert OccursAt(s[1..], t, i - 1);
        }
      }
      b
  }

  /** `s.split('@')[0]`: everything before the first `@`. */
  function LocalPart(s: string): (r: string)
    ensures r <= s && '@' !in r
    ensures |r| < |s| ==> s[|r|] == '@'
    decreases |s|
  {
    if s == [] || s[0] == '@' then [] else [s[0]] + LocalPart(s[1..])
  }

  /** `s.replace(/[^a-zA-Z]/g, '')`: the letters of `s`, in order. */
  function LettersOnly(s: string): (r: string)
    ensures forall i :: 0 <= i < |r| ==> IsLetter(r[i]) && r[i] in s
    ensures forall i :: 0 <= i < |s| && IsLetter(s[i]) ==> s[i] in r
    ensures |s| == 1 ==> r == (if IsLetter(s[0]) then s else "")
    ensures |r| <= |s|
    decreases |s|
  {
    if s == [] then []
    else (if IsLetter(s[0]) then [s[0]] else []) + LettersOnly(s[1..])
  }

  /** Dropping the non-letters works piece by piece, so the kept letters stay in their
      order and keep their repeats; with the one-character case this fixes the result. */
  lemma {:induction false} LettersOnlyAppend(a: string, b: string)
    ensures LettersOnly(a + b) == LettersOnly(a) + LettersOnly(b)
    decreases |a|
  {
    if a == [] {
      assert a + b == b;
    } else {
      var head := if IsLetter(a[0]) then [a[0]] else [];
      assert (a + b)[0] == a[0];
      assert (a + b)[1..] == a[1..] + b;
      LettersOnlyAppend(a[1..], b);
      calc {
        LettersOnly(a + b);
        head + LettersOnly(a[1..] + b);
        head + (LettersOnly(a[1..]) + LettersOnly(b));
        (head + LettersOnly(a[1..])) + LettersOnly(b);
        LettersOnly(a) + LettersOnly(b);
      }
    }
  }

  /** `s.charAt(0).toUpperCase() + s.slice(1)` */
  function Capitalize(s: string): (r: string)
    ensures |r| == |s|
    ensures s != [] ==> r[0] == UpperChar(s[0]) && r[1..] == s[1..]
  {
    if s == [] then [] else [UpperChar(s[0])] + s[1..]
  }

  /** The display name `login` derives from an email address: the letters of the
      lower-cased part before the first `@`, the first one upper-cased. */
  function DisplayName(email: string): (name: string)
    ensures forall i :: 0 <= i < |name| ==> IsLetter(name[i])
    ensures name != [] ==> IsUpper(name[0])
    ensures forall i :: 1 <= i < |name| ==> IsLower(name[i])
    ensures ToLower(name) == LettersOnly(LocalPart(ToLower(email)))
  {
    var letters := LettersOnly(LocalPart(ToLower(email)));
    assert forall i :: 0 <= i < |letters| ==> IsLower(letters[i]) by {
      forall i | 0 <= i < |letters| ensures IsLower(letters[i]) {
        var c := letters[i];
        assert c in ToLower(email);
      }
    }
    var name := Capitalize(letters);
    assert ToLower(name) == letters by {
      forall i | 0 <= i < |letters| ensures ToLower(name)[i] == letters[i] {
        if i == 0 {
          assert LowerChar(UpperChar(letters[0])) == letters[0];
        } else {
          assert name[i] == name[1..][i - 1] == letters[1..][i - 1];
        }
      }
    }
    name
  }

  /** The role `login` assigns: `Admin` when the lower-cased email contains `admin`,
      otherwise `Manager` when it contains `manager`, otherwise `Employee`. */
  function RoleFor(email: string): (role: string)
    ensures role == "Admin" || role == "Manager" || role == "Employee"
    ensures role == "Admin" <==> Contains(ToLower(email), "admin")
    ensures role == "Manager" <==> !Contains(ToLower(email), "admin") && Contains(ToLower(email), "manager")
  {
    var lower := ToLower(email);
    if Contains(lower, "admin") then "Admin"
    else if Contains(lower, "manager") then "Manager"
    else "Employee"
  }

  /** What `login` and `signup` resolve to. */
  datatype AuthPayload = AuthPayload(user: Object, accessToken: string)

  /** The simulated `login(credentials)`: stores the password, and returns a user whose
      name and role come from the email and whose email is the one typed, not lower-cased.
      `stamp` and `tokenStamp` stand for the two separate readings of `Date.now()`, for the
      user id and for the token. */
  method Login(storage: LocalStorage, email: string, password: string, stamp: string, tokenStamp: string)
    returns (p: AuthPayload)
    modifies storage
    ensures storage.entries == old(storage.entries)["user_password" := Str(password)]
    ensures p.user.Keys == {"id", "name", "email", "role"}
    ensures p.user["id"] == Str("user-" + stamp)
    ensures p.user["name"] == Str(DisplayName(email))
    ensures p.user["email"] == Str(email)
    ensures p.user["role"] == Str(RoleFor(email))
    ensures p.accessToken == "fake-" + ToLower(RoleFor(email)) + "-jwt-token-" + tokenStamp
  {
    storage.SetText("user_password", password);
    var role := RoleFor(email);
    var user := map["id" := Str("user-" + stamp), "name" := Str(DisplayName(email)),
                    "email" := Str(email), "role" := Str(role)];
    p := AuthPayload(user, "fake-" + ToLower(role) + "-jwt-token-" + tokenStamp);
  }

  /** The simulated `signup(details)`: stores the password and hands the caller's name,
      email and role back unchanged. `stamp` and `tokenStamp` are, as for `Login`, the two
      readings of `Date.now()`. */
  method Signup(storage: LocalStorage, name: string, email: string, password: string, role: string,
                stamp: string, tokenStamp: string)
    returns (p: AuthPayload)
    modifies storage
    ensures storage.entries == old(storage.entries)["user_password" := Str(password)]
    ensures p.user.Keys == {"id", "name", "email", "role"}
    ensures p.user["id"] == Str("user-" + stamp)
    ensures p.user["name"] == Str(name) && p.user["email"] == Str(email) && p.user["role"] == Str(role)
    ensures p.accessToken == "new-fake-" + ToLower(role) + "-jwt-token-" + tokenStamp
  {
    storage.SetText("user_password", password);
    var user := map["id" := Str("user-" + stamp), "name" := Str(name),
                    "email" := Str(email), "role" := Str(role)];
    p := AuthPayload(user, "new-fake-" + ToLower(role) + "-jwt-token-" + tokenStamp);
  }

  /** The three ways a password change is refused. */
  datatype PasswordError = NoPasswordFound | IncorrectCurrent | SameAsOld

  function Message(e: PasswordError): string {
    match e
    case NoPasswordFound => "No password found. Please log out and log back in."
    case IncorrectCurrent => "The current password you entered is incorrect."
    case SameAsOld => "New password cannot be the same as the old password."
  }

  /** The checks of `changePassword`, in their order: a stored password must exist (an
      empty one counts as missing), the current password must equal it, and the new one
      must differ from the current one. */
  function PasswordChangeError(saved: Option<string>, current: string, next: string): (e: Option<PasswordError>)
    ensures e == Some(NoPasswordFound) <==> saved.None? || saved.value == ""
    ensures e == Some(IncorrectCurrent) <==> saved.Some? && saved.value != "" && current != saved.value
    ensures e == Some(SameAsOld) <==> saved.Some? && saved.value != "" && current == saved.value && next == current
    ensures e == None <==> saved.Some? && saved.value != "" && current == saved.value && next != saved.value
  {
    if saved.None? || saved.value == "" then Some(NoPasswordFound)
    else if current != saved.value then Some(IncorrectCurrent)
    else if current == next then Some(SameAsOld)
    else None
  }

  /** The simulated `changePassword`: on success the stored password becomes the new one;
      on every refusal storage is left as it was. */
  method ChangePassword(storage: LocalStorage, current: string, next: string)
    returns (error: Option<PasswordError>)
    modifies storage
    ensures error == PasswordChangeError(GetText(old(storage.entries), "user_password"), current, next)
    ensures error.None? ==> storage.entries == old(storage.entries)["user_password" := Str(next)]
    ensures error.Some? ==> storage.entries == old(storage.entries)
  {
    error := PasswordChangeError(GetText(storage.entries, "user_password"), current, next);
    if error.None? {
      storage.SetText("user_password", next);
    }
  }

  /** Right after a login with a non-empty password, changing it to a different one succeeds,
      and changing it to itself is refused as "the same". */
  lemma ChangeAfterLogin(entries: map<string, Value>, password: string, next: string)
    requires password != ""
    ensures var stored := GetText(entries["user_password" := Str(password)], "user_password");
      && PasswordChangeError(stored, password, next) == (if next == password then Some(SameAsOld) else None)
      && PasswordChangeError(stored, next, next) == (if next == password then Some(SameAsOld) else Some(IncorrectCurrent))
  {
  }

  /** A login with an empty password leaves nothing a password change can match. */
  lemma EmptyPasswordIsMissing(entries: map<string, Value>, current: string, next: string)
    ensures PasswordChangeError(GetText(entries["user_password" := Str("")], "user_password"), current, next)
      == Some(NoPasswordFound)
  {
  }
}
