/** The form validation schemas: the email and strong-password patterns, whitespace
    trimming, and one predicate per form. Every form field arrives as a string, except
    a task's due date, which arrives already parsed (`None` for an unparsable date). */
module Validation {
  import opened JsValues
  import opened AuthService

  predicate IsDigit(c: char) { '0' <= c <= '9' }

  /** `[a-zA-Z0-9._%+-]`: the characters allowed before the `@`. */
  predicate IsLocalChar(c: char) {
    IsLetter(c) || IsDigit(c) || c == '.' || c == '_' || c == '%' || c == '+' || c == '-'
  }

  /** `[a-zA-Z0-9.-]`: the characters allowed between the `@` and the final dot. */
  predicate IsDomainChar(c: char) {
    IsLetter(c) || IsDigit(c) || c == '.' || c == '-'
  }

  /** Every character of `s` belongs to the class. */
  predicate AllLocal(s: string) { forall k :: 0 <= k < |s| ==> IsLocalChar(s[k]) }
  predicate AllDomain(s: string) { forall k :: 0 <= k < |s| ==> IsDomainChar(s[k]) }
  predicate AllLetters(s: string) { forall k :: 0 <= k < |s| ==> IsLetter(s[k]) }

  /** The email pattern `^[a-zA-Z0-9._%+-]+@[a-zA-Z0-9.-]+\.[a-zA-Z]{2,}$` matched with the
      `@` at index `at` and the dot before the top-level domain at index `dot`. */
  predicate EmailSplit(s: string, at: int, dot: int) {
    && 1 <= at && at + 2 <= dot && dot + 3 <= |s|
    && s[at] == '@' && s[dot] == '.'
    && AllLocal(s[..at]) && AllDomain(s[at + 1..dot]) && AllLetters(s[dot + 1..])
  }

  /** The pattern matches `s`: some way of splitting it fits. */
  ghost predicate EmailPattern(s: string) {
    exists at, dot :: EmailSplit(s, at, dot)
  }

  /** The index of the first `c` in `s`, or -1. */
  function FirstIndex(s: string, c: char): (i: int)
    ensures -1 <= i < |s|
    ensures i == -1 <==> c !in s
    ensures i != -1 ==> s[i] == c && c !in s[..i]
    decreases |s|
  {
    if s == [] then -1
    else if s[0] == c then 0
    else
      var k := FirstIndex(s[1..], c);
      assert s[1..][..k + 1] == s[1..k + 2] by {
        if k != -1 { assert s[..k + 1 + 1] == [s[0]] + s[1..][..k + 1]; }
      }
      if k == -1 then -1
      else assert s[..k + 1] == [s[0]] + s[1..][..k]; k + 1
  }

  /** The index of the last `c` in `s`, or -1. */
  function LastIndex(s: string, c: char): (i: int)
    ensures -1 <= i < |s|
    ensures i == -1 <==> c !in s
    ensures i != -1 ==> s[i] == c && c !in s[i + 1..]
    decreases |s|
  {
    if s == [] then -1
    else if s[|s| - 1] == c then |s| - 1
    else
      var k := LastIndex(s[..|s| - 1], c);
      assert s == s[..|s| - 1] + [s[|s| - 1]];
      assert k != -1 ==> s[k + 1..] == s[..|s| - 1][k + 1..] + [s[|s| - 1]];
      k
  }

  /** Decides the email pattern: the only candidate split is at the first `@`, since
      neither side admits another `@`, and at the last dot, since the top-level domain
      admits no dot. */
  function IsValidEmail(s: string): (b: bool)
    ensures b <==> EmailPattern(s)
  {
    var at := FirstIndex(s, '@');
    var dot := LastIndex(s, '.');
    if EmailSplit(s, at, dot) then true
    else
      assert !EmailPattern(s) by {
        if EmailPattern(s) {
          var a, d :| EmailSplit(s, a, d);
          SplitIsUnique(s, a, d);
        }
      }
      false
  }

  /** A split that fits puts the `@` at its first occurrence and the dot at its last. */
  lemma SplitIsUnique(s: string, at: int, dot: int)
    requires EmailSplit(s, at, dot)
    ensures at == FirstIndex(s, '@') && dot == LastIndex(s, '.')
  {
    assert s[at] in s && s[dot] in s;
  }

  /** `@$!%*?&`: the special characters of the strong-password pattern. */
  predicate IsSpecial(c: char) {
    c == '@' || c == '$' || c == '!' || c == '%' || c == '*' || c == '?' || c == '&'
  }

  predicate IsPasswordChar(c: char) {
    IsLetter(c) || IsDigit(c) || IsSpecial(c)
  }

  /** The strong-password pattern `^(?=.*[a-z])(?=.*[A-Z])(?=.*\d)(?=.*[@$!%*?&])[A-Za-z\d@$!%*?&]{8,}$`:
      at least eight characters, all letters, digits or specials, with at least one of each
      of lower case, upper case, digit and special. */
  predicate StrongPassword(s: string) {
    && |s| >= 8
    && (forall k :: 0 <= k < |s| ==> IsPasswordChar(s[k]))
    && (exists k :: 0 <= k < |s| && IsLower(s[k]))
    && (exists k :: 0 <= k < |s| && IsUpper(s[k]))
    && (exists k :: 0 <= k < |s| && IsDigit(s[k]))
    && (exists k :: 0 <= k < |s| && IsSpecial(s[k]))
  }

  /** The password rule of the forms: `.min(8)`, the pattern, `.required()`. The pattern
      alone already decides it. */
  function PasswordOk(s: string): (b: bool)
    ensures b <==> StrongPassword(s)
    ensures b ==> s != "" && |s| >= 8
  {
    |s| >= 8 && StrongPassword(s) && s != ""
  }

  /** `String.prototype.trim`'s white space and line terminators. */
  predicate IsSpace(c: char) {
    || c == '\t' || c == '\n' || c == '\U{B}' || c == '\U{C}' || c == '\r' || c == ' '
    || c == '\U{A0}' || c == '\U{1680}' || ('\U{2000}' <= c <= '\U{200A}')
    || c == '\U{2028}' || c == '\U{2029}' || c == '\U{202F}' || c == '\U{205F}'
    || c == '\U{3000}' || c == '\U{FEFF}'
  }

  /** The index of the first visible character at or after `i`, or `|s|` if there is none. */
  function SkipForward(s: string, i: nat): (n: nat)
    requires i <= |s|
    ensures i <= n <= |s|
    ensures forall k :: i <= k < n ==> IsSpace(s[k])
    ensures n < |s| ==> !IsSpace(s[n])
    decreases |s| - i
  {
    if i < |s| && IsSpace(s[i]) then SkipForward(s, i + 1) else i
  }

  /** The index just after the last visible character before `j`, or 0 if there is none. */
  function SkipBackward(s: string, j: nat): (n: nat)
    requires j <= |s|
    ensures n <= j
    ensures forall k :: n <= k < j ==> IsSpace(s[k])
    ensures 0 < n ==> !IsSpace(s[n - 1])
  {
    if 0 < j && IsSpace(s[j - 1]) then SkipBackward(s, j - 1) else j
  }

  /** The number of white-space characters `s` starts with. */
  function Lead(s: string): (n: nat)
    ensures n <= |s|
    ensures forall k :: 0 <= k < n ==> IsSpace(s[k])
    ensures n < |s| ==> !IsSpace(s[n])
  {
    SkipForward(s, 0)
  }

  /** The number of white-space characters `s` ends with. */
  function Trail(s: string): (n: nat)
    ensures n <= |s|
    ensures forall k :: |s| - n <= k < |s| ==> IsSpace(s[k])
    ensures n < |s| ==> !IsSpace(s[|s| - 1 - n])
  {
    |s| - SkipBackward(s, |s|)
  }

  /** The leading white space is the run before the first visible character. */
  lemma LeadIs(s: string, n: nat)
    requires n <= |s|
    requires forall k :: 0 <= k < n ==> IsSpace(s[k])
    requires n < |s| ==> !IsSpace(s[n])
    ensures Lead(s) == n
  {
    var m := Lead(s);
    assert m < |s| ==> !IsSpace(s[m]);
    assert n < |s| ==> !IsSpace(s[n]);
  }

  /** The trailing white space is the run after the last visible character. */
  lemma TrailIs(s: string, n: nat)
    requires n <= |s|
    requires forall k :: |s| - n <= k < |s| ==> IsSpace(s[k])
    requires n < |s| ==> !IsSpace(s[|s| - 1 - n])
    ensures Trail(s) == n
  {
    var m := Trail(s);
    assert m < |s| ==> !IsSpace(s[|s| - 1 - m]);
    assert n < |s| ==> !IsSpace(s[|s| - 1 - n]);
  }

  /** `r` occurs in `s` at `lead`, with only white space before and after it. */
  predicate TrimmedAt(s: string, r: string, lead: int) {
    && OccursAt(s, r, lead)
    && (forall k :: 0 <= k < lead ==> IsSpace(s[k]))
    && (forall k :: lead + |r| <= k < |s| ==> IsSpace(s[k]))
  }

  /** `s.trim()`: the part of `s` between its leading and trailing white space. */
  function Trim(s: string): (r: string)
    ensures r == [] <==> forall k :: 0 <= k < |s| ==> IsSpace(s[k])
    ensures r != [] ==> !IsSpace(r[0]) && !IsSpace(r[|r| - 1])
    ensures exists lead :: TrimmedAt(s, r, lead)
  {
    var a := Lead(s);
    if a == |s| then
      assert TrimmedAt(s, [], a);
      []
    else
      var b := Trail(s);
      assert !IsSpace(s[a]);
      var r := s[a..|s| - b];
      assert r[0] == s[a] && r[|r| - 1] == s[|s| - b - 1];
      assert TrimmedAt(s, r, a);
      r
  }

  /** A text that starts and ends with a visible character is its own trim. */
  lemma TrimUnpadded(s: string)
    requires s != [] && !IsSpace(s[0]) && !IsSpace(s[|s| - 1])
    ensures Trim(s) == s
  {
    assert Lead(s) == 0 && Trail(s) == 0;
  }

  /** `yup.string().trim().min(2).required()` */
  predicate NameOk(name: string) {
    |Trim(name)| >= 2
  }

  /** `yup.string().matches(emailRegex).required()` */
  predicate EmailOk(email: string) {
    email != "" && IsValidEmail(email)
  }

  datatype LoginForm = LoginForm(email: string, password: string)
  datatype SignupForm = SignupForm(name: string, email: string, password: string, role: string)
  datatype ProfileForm = ProfileForm(name: string, email: string)
  datatype PasswordChangeForm = PasswordChangeForm(currentPassword: string, newPassword: string, confirmPassword: string)
  datatype UserForm = UserForm(name: string, email: string, role: string)
  datatype ProjectForm = ProjectForm(name: string, description: string)
  datatype TaskForm = TaskForm(title: string, description: string, dueDate: Option<int>,
                               assignee: string, priority: string, taskType: string)

  /** `loginSchema`: an email matching the pattern and a strong password. */
  function LoginValid(f: LoginForm): (ok: bool)
    ensures ok <==> EmailPattern(f.email) && StrongPassword(f.password)
    ensures ok ==> f.email != "" && |f.password| >= 8
  {
    EmailOk(f.email) && PasswordOk(f.password)
  }

  /** `signupSchema`: the login rules, a name of two characters once trimmed, and one of
      the three roles. */
  function SignupValid(f: SignupForm): (ok: bool)
    ensures ok <==> && LoginValid(LoginForm(f.email, f.password)) && |Trim(f.name)| >= 2
                    && (f.role == "Admin" || f.role == "Manager" || f.role == "Employee")
    ensures ok ==> exists k :: 0 <= k < |f.name| && !IsSpace(f.name[k])
  {
    && NameOk(f.name) && EmailOk(f.email) && PasswordOk(f.password)
    && f.role in {"Admin", "Manager", "Employee"}
  }

  /** `profileSchema`: a trimmed name of two characters and a matching email. */
  function ProfileValid(f: ProfileForm): (ok: bool)
    ensures ok <==> |Trim(f.name)| >= 2 && EmailPattern(f.email)
  {
    NameOk(f.name) && EmailOk(f.email)
  }

  /** `passwordChangeSchema`: any non-empty current password, a strong new password, and
      `oneOf([ref('newPassword'), null]).required()`, that is a confirmation equal to it. */
  function PasswordChangeValid(f: PasswordChangeForm): (ok: bool)
    ensures ok <==> f.currentPassword != "" && StrongPassword(f.newPassword) && f.confirmPassword == f.newPassword
  {
    && f.currentPassword != ""
    && PasswordOk(f.newPassword)
    && f.confirmPassword == f.newPassword && f.confirmPassword != ""
  }

  /** `userSchema`: as the profile, plus a role that only has to be non-empty. */
  function UserValid(f: UserForm): (ok: bool)
    ensures ok <==> ProfileValid(ProfileForm(f.name, f.email)) && f.role != ""
  {
    NameOk(f.name) && EmailOk(f.email) && f.role != ""
  }

  /** `projectSchema`: three characters of name, untrimmed; the description is free.
      `.required()` adds nothing once `.min(3)` holds, as the contract shows. */
  function ProjectValid(f: ProjectForm): (ok: bool)
    ensures ok <==> |f.name| >= 3
  {
    |f.name| >= 3 && f.name != ""
  }

  /** `taskSchema`: a three-character title, a parsable due date, and non-empty assignee,
      priority and type; the description is free. The title's `.required()` adds nothing
      once `.min(3)` holds, as the contract shows. */
  function TaskValid(f: TaskForm): (ok: bool)
    ensures ok <==> |f.title| >= 3 && f.dueDate.Some? && f.assignee != "" && f.priority != "" && f.taskType != ""
  {
    && |f.title| >= 3 && f.title != ""
    && f.dueDate.Some?
    && f.assignee != "" && f.priority != "" && f.taskType != ""
  }

  /** Trimming ignores white space added on either side, or both, so padding a name
      neither helps nor hurts it. */
  lemma TrimIgnoresPadding(p: string, name: string, q: string)
    requires forall k :: 0 <= k < |p| ==> IsSpace(p[k])
    requires forall k :: 0 <= k < |q| ==> IsSpace(q[k])
    ensures Trim(p + name + q) == Trim(name)
    ensures NameOk(p + name + q) <==> NameOk(name)
  {
    if Lead(name) == |name| {
      PaddedBlank(p, name, q);
    } else {
      TrimVisible(name);
      PaddedVisible(p, name, q);
      SliceOfPadded(p, name, q, Lead(name), |name| - Trail(name));
      TrimShifted(p + name + q, name, |p|);
    }
  }

  /** A text that holds a name at `off`, with only white space around it, trims as the
      name does. */
  lemma TrimShifted(s: string, name: string, off: nat)
    requires Lead(name) < |name| && off + |name| <= |s|
    requires Lead(s) == off + Lead(name)
    requires Trail(s) == Trail(name) + (|s| - off - |name|)
    requires Lead(name) + Trail(name) <= |name|
    requires s[off + Lead(name)..off + (|name| - Trail(name))] == name[Lead(name)..|name| - Trail(name)]
    ensures Trim(s) == Trim(name)
  {
    TrimVisible(name);
    TrimVisible(s);
  }

  /** A text with a visible character trims to what lies between its leading and trailing
      white space. */
  lemma TrimVisible(s: string)
    requires Lead(s) < |s|
    ensures Lead(s) + Trail(s) <= |s|
    ensures Trim(s) == s[Lead(s)..|s| - Trail(s)]
  {
  }

  /** Padding a blank name leaves it blank. */
  lemma PaddedBlank(p: string, name: string, q: string)
    requires forall k :: 0 <= k < |p| ==> IsSpace(p[k])
    requires forall k :: 0 <= k < |q| ==> IsSpace(q[k])
    requires Lead(name) == |name|
    ensures Lead(p + name + q) == |p + name + q|
  {
    var s := p + name + q;
    assert forall k :: 0 <= k < |s| ==> IsSpace(s[k]) by {
      forall k | 0 <= k < |s| ensures IsSpace(s[k]) {
        if k < |p| {
          assert s[k] == p[k];
        } else if k < |p| + |name| {
          assert s[k] == name[k - |p|];
        } else {
          assert s[k] == q[k - |p| - |name|];
        }
      }
    }
    LeadIs(s, |s|);
  }

  /** Padding a name with a visible character adds the padding to its leading and
      trailing white space. */
  lemma PaddedVisible(p: string, name: string, q: string)
    requires forall k :: 0 <= k < |p| ==> IsSpace(p[k])
    requires forall k :: 0 <= k < |q| ==> IsSpace(q[k])
    requires Lead(name) < |name|
    ensures Lead(p + name + q) == |p| + Lead(name)
    ensures Trail(p + name + q) == Trail(name) + |q|
  {
    PaddedLead(p, name, q);
    PaddedTrail(p, name, q);
  }

  lemma PaddedLead(p: string, name: string, q: string)
    requires forall k :: 0 <= k < |p| ==> IsSpace(p[k])
    requires Lead(name) < |name|
    ensures Lead(p + name + q) == |p| + Lead(name)
  {
    var s := p + name + q;
    var a := Lead(name);
    assert s[|p| + a] == name[a];
    assert forall k :: 0 <= k < |p| + a ==> IsSpace(s[k]) by {
      forall k | 0 <= k < |p| + a ensures IsSpace(s[k]) {
        if k < |p| {
          assert s[k] == p[k];
        } else {
          assert s[k] == name[k - |p|];
        }
      }
    }
    LeadIs(s, |p| + a);
  }

  lemma PaddedTrail(p: string, name: string, q: string)
    requires forall k :: 0 <= k < |q| ==> IsSpace(q[k])
    requires Lead(name) < |name|
    ensures Trail(p + name + q) == Trail(name) + |q|
  {
    var s := p + name + q;
    var b := Trail(name);
    var last := |name| - 1 - b;
    assert 0 <= last by {
      assert !IsSpace(name[Lead(name)]);
    }
    assert !IsSpace(name[last]);
    assert s[|p| + last] == name[last];
    assert forall k :: |p| + last < k < |s| ==> IsSpace(s[k]) by {
      forall k | |p| + last < k < |s| ensures IsSpace(s[k]) {
        if k < |p| + |name| {
          assert s[k] == name[k - |p|];
        } else {
          assert s[k] == q[k - |p| - |name|];
        }
      }
    }
    TrailIs(s, b + |q|);
  }

  /** A stretch of the name sits `|p|` further on in the padded name. */
  lemma SliceOfPadded(p: string, name: string, q: string, i: nat, j: nat)
    requires i <= j <= |name|
    ensures (p + name + q)[|p| + i..|p| + j] == name[i..j]
  {
    var s := p + name + q;
    assert forall k :: 0 <= k < j - i ==> s[|p| + i..|p| + j][k] == name[i..j][k];
  }

  /** A trimmed text is its own trim. */
  lemma TrimIdempotent(s: string)
    ensures Trim(Trim(s)) == Trim(s)
  {
    var r := Trim(s);
    if r != [] {
      TrimUnpadded(r);
    }
  }

  /** Whatever passes the signup form also passes the login form and the administrator's
      user form with the same fields. */
  lemma SignupImpliesLoginAndUser(f: SignupForm)
    requires SignupValid(f)
    ensures LoginValid(LoginForm(f.email, f.password))
    ensures UserValid(UserForm(f.name, f.email, f.role))
  {
  }

  /** The sample password of the seeded accounts is strong. */
  lemma SamplePasswordIsStrong()
    ensures PasswordOk("Password123!")
  {
    var p := "Password123!";
    assert IsUpper(p[0]) && IsLower(p[1]) && IsDigit(p[8]) && IsSpecial(p[11]);
  }

  /** The administrator's form accepts a role outside the three known ones, which the
      signup form refuses. */
  lemma UserFormAcceptsAnyRole()
    ensures UserValid(UserForm("Al", "a@b.co", "Superuser"))
    ensures !SignupValid(SignupForm("Al", "a@b.co", "Password123!", "Superuser"))
  {
    SampleNameIsValid();
    SampleEmailIsValid();
  }

  /** The sample name `Al` is two letters with nothing to trim. */
  lemma SampleNameIsValid()
    ensures NameOk("Al")
  {
    TrimUnpadded("Al");
  }

  /** The sample address `a@b.co` matches the email pattern. */
  lemma SampleEmailIsValid()
    ensures EmailOk("a@b.co")
  {
    assert EmailSplit("a@b.co", 1, 3);
  }

  /** The sample credentials: a valid login that signs in as an Admin. */
  lemma SampleAdminLogin()
    ensures LoginValid(LoginForm("admin@test.com", "Password123!"))
    ensures RoleFor("admin@test.com") == "Admin"
  {
    assert EmailSplit("admin@test.com", 5, 10);
    SamplePasswordIsStrong();
    var lower := ToLower("admin@test.com");
    assert lower[..5] == "admin";
    assert OccursAt(lower, "admin", 0);
  }

  /** The schema and the service check different things: a password change the form
      accepts is still refused when the new password equals the current one. */
  lemma SchemaAcceptsWhatServiceRefuses()
    ensures var f := PasswordChangeForm("Password123!", "Password123!", "Password123!");
      && PasswordChangeValid(f)
      && PasswordChangeError(Some("Password123!"), f.currentPassword, f.newPassword) == Some(SameAsOld)
  {
    SamplePasswordIsStrong();
  }

  /** A project name of three spaces passes, since the project form does not trim;
      the same text fails every trimmed name rule. */
  lemma ProjectNameNotTrimmed()
    ensures ProjectValid(ProjectForm("   ", "")) && !NameOk("   ")
  {
  }
}
