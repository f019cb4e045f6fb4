/**
 * The `User` aggregate: profile fields, a login id, a password and audit
 * information. Every change returns a new user; the clock read of the
 * audit update is the `now` parameter.
 */
module Users {
  import opened Base
  import opened Text
  import opened Identifiers
  import Audit

  datatype User = User(
    id: Option<UserId>,
    name: string,
    email: string,
    loginId: string,
    password: string,
    auditInfo: Audit.AuditInfo)

  /**
   * `User.create`: name, email, login id and password must each be
   * non-blank, checked in that order. A new user has no id and is created
   * and last updated by `createdBy`.
   */
  function Create(name: string, email: string, loginId: string, password: string,
                  createdBy: string, now: Instant): (r: Result<User>)
    ensures r.Ok? <==> !IsBlank(name) && !IsBlank(email) && !IsBlank(loginId) && !IsBlank(password)
    ensures IsBlank(name) ==> r == Err(IllegalArgument("Name cannot be blank"))
    ensures !IsBlank(name) && IsBlank(email) ==> r == Err(IllegalArgument("Email cannot be blank"))
    ensures !IsBlank(name) && !IsBlank(email) && IsBlank(loginId)
            ==> r == Err(IllegalArgument("Login ID cannot be blank"))
    ensures !IsBlank(name) && !IsBlank(email) && !IsBlank(loginId) && IsBlank(password)
            ==> r == Err(IllegalArgument("Password cannot be blank"))
    ensures r.Ok? ==> r.value.id == None && r.value.name == name && r.value.email == email
    ensures r.Ok? ==> r.value.loginId == loginId && VerifyPassword(r.value, password)
    ensures r.Ok? ==> r.value.auditInfo == Audit.NewInstance(createdBy, now)
    ensures r.Ok? ==> r.value.auditInfo.createdBy == createdBy && r.value.auditInfo.updatedBy == createdBy
    ensures r.Ok? ==> r.value.auditInfo.createdAt == now && r.value.auditInfo.updatedAt == now
  {
    if IsBlank(name) then Err(IllegalArgument("Name cannot be blank"))
    else if IsBlank(email) then Err(IllegalArgument("Email cannot be blank"))
    else if IsBlank(loginId) then Err(IllegalArgument("Login ID cannot be blank"))
    else if IsBlank(password) then Err(IllegalArgument("Password cannot be blank"))
    else Ok(User(None, name, email, loginId, password, Audit.NewInstance(createdBy, now)))
  }

  /** `User.reconstitute`: the stored values, taken without any check. */
  function Reconstitute(id: UserId, name: string, email: string, loginId: string, password: string,
                        auditInfo: Audit.AuditInfo): (u: User)
    ensures u.id == Some(id) && u.name == name && u.email == email && u.loginId == loginId
    ensures GetPassword(u) == password && u.auditInfo == auditInfo
  {
    User(Some(id), name, email, loginId, password, auditInfo)
  }

  /**
   * `update`: a new name and email, both non-blank; id, login id, password
   * and the creation half of the audit info are kept.
   */
  function Update(u: User, name: string, email: string, updatedBy: string, now: Instant): (r: Result<User>)
    ensures r.Ok? <==> !IsBlank(name) && !IsBlank(email)
    ensures IsBlank(name) ==> r == Err(IllegalArgument("Name cannot be blank"))
    ensures !IsBlank(name) && IsBlank(email) ==> r == Err(IllegalArgument("Email cannot be blank"))
    ensures r.Ok? ==> r.value.name == name && r.value.email == email
    ensures r.Ok? ==> r.value.id == u.id && r.value.loginId == u.loginId && GetPassword(r.value) == GetPassword(u)
    ensures r.Ok? ==> r.value.auditInfo.createdBy == u.auditInfo.createdBy
    ensures r.Ok? ==> r.value.auditInfo.createdAt == u.auditInfo.createdAt
    ensures r.Ok? ==> r.value.auditInfo.updatedBy == updatedBy && r.value.auditInfo.updatedAt == now
  {
    if IsBlank(name) then Err(IllegalArgument("Name cannot be blank"))
    else if IsBlank(email) then Err(IllegalArgument("Email cannot be blank"))
    else Ok(u.(name := name, email := email, auditInfo := Audit.Update(u.auditInfo, updatedBy, now)))
  }

  /**
   * `updatePassword`: a new non-blank password that the result accepts;
   * id, name, email and login id are kept.
   */
  function UpdatePassword(u: User, newPassword: string, updatedBy: string, now: Instant): (r: Result<User>)
    ensures r.Ok? <==> !IsBlank(newPassword)
    ensures r.Err? ==> r.error == IllegalArgument("Password cannot be blank")
    ensures r.Ok? ==> VerifyPassword(r.value, newPassword)
    ensures r.Ok? ==> r.value.id == u.id && r.value.name == u.name && r.value.email == u.email
    ensures r.Ok? ==> r.value.loginId == u.loginId
    ensures r.Ok? ==> r.value.auditInfo == Audit.Update(u.auditInfo, updatedBy, now)
    ensures r.Ok? ==> r.value.auditInfo.createdBy == u.auditInfo.createdBy && r.value.auditInfo.createdAt == u.auditInfo.createdAt
    ensures r.Ok? ==> r.value.auditInfo.updatedBy == updatedBy && r.value.auditInfo.updatedAt == now
  {
    if IsBlank(newPassword) then Err(IllegalArgument("Password cannot be blank"))
    else Ok(u.(password := newPassword, auditInfo := Audit.Update(u.auditInfo, updatedBy, now)))
  }

  /**
   * `verifyPassword`: exact comparison with the stored password, that is,
   * the same length and the same character at every position.
   */
  predicate VerifyPassword(u: User, password: string): (b: bool)
    ensures b <==> |password| == |u.password| && forall i | 0 <= i < |password| :: password[i] == u.password[i]
  {
    u.password == password
  }

  /** `getPassword`: the one password the user accepts. */
  function GetPassword(u: User): (p: string)
    ensures VerifyPassword(u, p)
    ensures forall other :: VerifyPassword(u, other) ==> other == p
  {
    u.password
  }

  /**
   * After a password change exactly the new password is accepted, and a
   * profile update leaves the accepted password as it was.
   */
  lemma PasswordChanges(u: User, newPassword: string, other: string, name: string, email: string,
                        updater: string, now: Instant)
    requires !IsBlank(newPassword)
    ensures VerifyPassword(UpdatePassword(u, newPassword, updater, now).value, other) <==> other == newPassword
    ensures Update(u, name, email, updater, now).Ok?
            ==> (VerifyPassword(Update(u, name, email, updater, now).value, other) <==> VerifyPassword(u, other))
    ensures VerifyPassword(u, other) <==> GetPassword(u) == other
  {
  }
}
