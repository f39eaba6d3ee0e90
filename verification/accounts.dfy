/**
 * The signed-in user record and its role. The source keeps the role as a
 * free string (it round-trips through local storage as JSON); the model
 * names the four roles the portal knows and keeps any other string as it is.
 */
module Accounts {
  import opened Wrappers

  /** The shape of a role value: one of the four roles, or `Other` with the string as read. */
  datatype RoleTag = Student | Company | Faculty | Admin | Other(name: string)

  /**
   * A role. `Other(name)` is any string that is not one of the four role
   * names, so a role string always has exactly one role value; a record with
   * no role at all behaves like `Other("")`.
   */
  type Role = r: RoleTag | Canonical(r) witness Student

  /** The signed-in user: only the fields the core reads (`name`, `role`). */
  datatype User = User(name: Option<string>, role: Role)

  /** The role string as it appears in the user record. */
  function RoleName(r: Role): string {
    match r
    case Student => "student"
    case Company => "company"
    case Faculty => "faculty"
    case Admin => "admin"
    case Other(name) => name
  }

  /** Reads a role string: the four known names map to their roles, anything else is kept as `Other`. */
  function ParseRole(s: string): (r: Role)
    ensures RoleName(r) == s
    ensures r.Other? <==> s !in {"student", "company", "faculty", "admin"}
  {
    if s == "student" then Student
    else if s == "company" then Company
    else if s == "faculty" then Faculty
    else if s == "admin" then Admin
    else Other(s)
  }

  /** A role value in canonical form: an `Other` never carries one of the four known names. */
  predicate Canonical(r: RoleTag) {
    r.Other? ==> r.name !in {"student", "company", "faculty", "admin"}
  }

  /**
   * The role string decides the role: a user whose role string is one of the
   * four names holds that role, whatever way the value was built.
   */
  lemma RoleOfName(r: Role)
    ensures RoleName(r) == "student" <==> r == Student
    ensures RoleName(r) == "company" <==> r == Company
    ensures RoleName(r) == "faculty" <==> r == Faculty
    ensures RoleName(r) == "admin" <==> r == Admin
  {
  }

  /** Writing a role out and reading it back gives the same role. */
  lemma ParseRoleName(r: Role)
    ensures ParseRole(RoleName(r)) == r
  {
  }

  /** Two roles with the same name are the same role. */
  lemma RoleNameInjective(r1: Role, r2: Role)
    ensures RoleName(r1) == RoleName(r2) <==> r1 == r2
  {
    ParseRoleName(r1);
    ParseRoleName(r2);
  }
}
