/** The user object of the two React front ends as their pages read it:
    the back end's answer is stored as is, so the same datum may sit at the
    top level, under `profile` or under a nested `user`. Every page guards
    each read with `?.` and falls back with `||`; these are the chains the
    pages share (healthcare_backend/healthcare-frontend/src/pages/Dashboard.js,
    healthcare-frontend/src/pages/Dashboard.js,
    healthcare_backend/healthcare-frontend/src/pages/Users.js). */
module LooseUsers {
  import opened Js
  import opened Text

  /** The properties read from `user.profile` or `user.user`. */
  datatype Part = Part(
    role: Option<string>, firstName: Option<string>, lastName: Option<string>,
    username: Option<string>, email: Option<string>)

  datatype LooseUser = LooseUser(
    role: Option<string>, firstName: Option<string>, lastName: Option<string>,
    name: Option<string>, username: Option<string>, email: Option<string>,
    profile: Option<Part>, nested: Option<Part>, id: Option<int>)

  /** `user?.profile?.<field>`, `user?.user?.<field>`: absent parts read as
      undefined. */
  function ProfileRole(user: Option<LooseUser>): Option<string> {
    if user.Some? && user.value.profile.Some? then user.value.profile.value.role else None
  }

  function NestedRole(user: Option<LooseUser>): Option<string> {
    if user.Some? && user.value.nested.Some? then user.value.nested.value.role else None
  }

  function NestedUsername(user: Option<LooseUser>): Option<string> {
    if user.Some? && user.value.nested.Some? then user.value.nested.value.username else None
  }

  function NestedEmail(user: Option<LooseUser>): Option<string> {
    if user.Some? && user.value.nested.Some? then user.value.nested.value.email else None
  }

  /** `user?.role`, `user?.username`, `user?.email`. */
  function TopRole(user: Option<LooseUser>): Option<string> {
    if user.Some? then user.value.role else None
  }

  function TopUsername(user: Option<LooseUser>): Option<string> {
    if user.Some? then user.value.username else None
  }

  function TopEmail(user: Option<LooseUser>): Option<string> {
    if user.Some? then user.value.email else None
  }

  /** `user?.profile?.role || user?.role || user?.user?.role || 'user'`. */
  function UserRole(user: Option<LooseUser>): (r: string)
    ensures Present(ProfileRole(user)) ==> r == ProfileRole(user).value
    ensures !Present(ProfileRole(user)) && user.Some? && Present(user.value.role) ==> r == user.value.role.value
    ensures !Present(ProfileRole(user)) && !(user.Some? && Present(user.value.role)) && Present(NestedRole(user)) ==>
              r == NestedRole(user).value
    ensures !Present(ProfileRole(user)) && !(user.Some? && Present(user.value.role)) && !Present(NestedRole(user)) ==>
              r == "user"
    ensures r != ""
  {
    Or(OrElse(OrElse(ProfileRole(user), TopRole(user)), NestedRole(user)), "user")
  }

  /** A role stored under `profile` hides the others: a user whose profile
      says 'admin' is an admin whatever `role` says, and one whose profile
      says 'user' is not, even with `role == 'admin'`. */
  lemma ProfileRoleFirst(user: LooseUser, part: Part)
    requires user.profile == Some(part) && Present(part.role)
    ensures UserRole(Some(user)) == part.role.value
  {
  }

  /** `user?.username || user?.user?.username || 'N/A'`. */
  function Username(user: Option<LooseUser>): (r: string)
    ensures user.Some? && Present(user.value.username) ==> r == user.value.username.value
    ensures !(user.Some? && Present(user.value.username)) && Present(NestedUsername(user)) ==> r == NestedUsername(user).value
    ensures !(user.Some? && Present(user.value.username)) && !Present(NestedUsername(user)) ==> r == "N/A"
  {
    Or(OrElse(TopUsername(user), NestedUsername(user)), "N/A")
  }

  /** `user?.email || user?.user?.email || 'N/A'`. */
  function Email(user: Option<LooseUser>): (r: string)
    ensures user.Some? && Present(user.value.email) ==> r == user.value.email.value
    ensures !(user.Some? && Present(user.value.email)) && Present(NestedEmail(user)) ==> r == NestedEmail(user).value
    ensures !(user.Some? && Present(user.value.email)) && !Present(NestedEmail(user)) ==> r == "N/A"
  {
    Or(OrElse(TopEmail(user), NestedEmail(user)), "N/A")
  }

  /** "first last" when both names are present. */
  function FullName(first: Option<string>, last: Option<string>): (r: Option<string>)
    ensures r.Some? <==> Present(first) && Present(last)
    ensures r.Some? ==> r.value == first.value + " " + last.value
  {
    if Present(first) && Present(last) then Some(first.value + " " + last.value) else None
  }

  /** The first four steps of every `getUserDisplayName`: the top-level
      first and last name, the profile's, `name`, then `username`.
      `None` when none applies. */
  function NameChain(user: Option<LooseUser>): (r: Option<string>)
    ensures user.None? ==> r.None?
    ensures user.Some? && FullName(user.value.firstName, user.value.lastName).Some? ==>
              r == FullName(user.value.firstName, user.value.lastName)
  {
    if user.None? then None
    else
      var u := user.value;
      if FullName(u.firstName, u.lastName).Some? then FullName(u.firstName, u.lastName)
      else if u.profile.Some? && FullName(u.profile.value.firstName, u.profile.value.lastName).Some? then
        FullName(u.profile.value.firstName, u.profile.value.lastName)
      else if Present(u.name) then u.name
      else if Present(u.username) then u.username
      else None
  }

  /** A first name alone is never shown: every name the chain gives is a
      complete "first last", `name` or `username`. */
  lemma NameChainSources(user: Option<LooseUser>)
    ensures var r := NameChain(user);
            r.Some? ==>
              var u := user.value;
              r == FullName(u.firstName, u.lastName)
              || (u.profile.Some? && r == FullName(u.profile.value.firstName, u.profile.value.lastName))
              || (r == u.name && Present(u.name))
              || (r == u.username && Present(u.username))
    ensures NameChain(user).None? <==>
              user.None?
              || (FullName(user.value.firstName, user.value.lastName).None?
                  && (user.value.profile.None? || FullName(user.value.profile.value.firstName, user.value.profile.value.lastName).None?)
                  && !Present(user.value.name) && !Present(user.value.username))
  {
  }

  /** The local part of an email: `email.split('@')[0]`. */
  function LocalPart(email: string): (r: string)
    ensures |r| <= |email| && r == email[..|r|] && '@' !in r
    ensures |r| < |email| ==> email[|r|] == '@'
  {
    BeforeFirst(email, '@')
  }

  /** The dashboards' `getUserDisplayName`: the chain, then the email's
      local part, then 'User'. */
  function DashboardDisplayName(user: Option<LooseUser>): (r: string)
    ensures NameChain(user).Some? ==> r == NameChain(user).value
    ensures NameChain(user).None? && user.Some? && Present(user.value.email) ==> r == LocalPart(user.value.email.value)
    ensures NameChain(user).None? && !(user.Some? && Present(user.value.email)) ==> r == "User"
  {
    if NameChain(user).Some? then NameChain(user).value
    else if user.Some? && Present(user.value.email) then LocalPart(user.value.email.value)
    else "User"
  }
}
