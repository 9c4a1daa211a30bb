/** The `/role` subcommands (commands/roles/role.js). The role changes themselves
    are platform calls; what is modelled is the option handling and the guards. */
module Roles {
  import opened Common
  import opened Sorting

  const DefaultColour: string := "#000000"

  datatype Reply =
    | Done
    | NotEditable     // the role is above the bot's highest role
    | InvalidColour   // a colour that is not "#" and six hex digits
    | NothingToEdit   // edit without any property
    | LacksRole       // remove of a role the member does not have
    | Failed          // the platform call failed

  /** The properties `/role create` passes to the platform. */
  datatype NewRole = NewRole(name: string, colour: string, hoist: bool, mentionable: bool)

  datatype CreateResult = CreateRefused(reason: Reply) | CreateWith(role: NewRole)

  /** `/role create`: colour `|| "#000000"`, the flags `|| false`, then the colour check. */
  function CreateOptions(name: string, colour: Option<string>, hoisted: Option<bool>, mentionable: Option<bool>)
    : (r: CreateResult)
    ensures r.CreateRefused? <==> colour.Some? && colour.value != "" && !IsHexColour(colour.value)
    ensures r.CreateRefused? ==> r.reason == InvalidColour
    ensures r.CreateWith? ==>
              && r.role.name == name && IsHexColour(r.role.colour)
              && r.role.colour == (if colour.Some? && colour.value != "" then colour.value else DefaultColour)
              && r.role.hoist == (hoisted == Some(true))
              && r.role.mentionable == (mentionable == Some(true))
  {
    var c := if colour.Some? && colour.value != "" then colour.value else DefaultColour;
    if !IsHexColour(c) then CreateRefused(InvalidColour)
    else CreateWith(NewRole(name, c, hoisted == Some(true), mentionable == Some(true)))
  }

  /** The options object of `/role edit`: a field is present only when provided. */
  datatype EditFields = EditFields(name: Option<string>, colour: Option<string>, hoist: Option<bool>, mentionable: Option<bool>)

  datatype EditResult = EditRefused(reason: Reply) | EditWith(fields: EditFields)

  /** A string option counts as given when it is present and non-empty. */
  predicate Given(s: Option<string>) { s.Some? && s.value != "" }

  /** `/role edit`: the editable guard, at least one property, the colour check,
      then exactly the given properties. */
  function EditOptions(editable: bool, name: Option<string>, colour: Option<string>,
                       hoisted: Option<bool>, mentionable: Option<bool>): (r: EditResult)
    ensures !editable ==> r == EditRefused(NotEditable)
    ensures editable && !Given(name) && !Given(colour) && hoisted.None? && mentionable.None? ==>
              r == EditRefused(NothingToEdit)
    ensures r.EditRefused? && r.reason == InvalidColour <==>
              editable && Given(colour) && !IsHexColour(colour.value)
    ensures r.EditWith? <==>
              editable && (Given(name) || Given(colour) || hoisted.Some? || mentionable.Some?) &&
              !(Given(colour) && !IsHexColour(colour.value))
    ensures r.EditWith? ==>
              && editable
              && (r.fields.name.Some? <==> Given(name)) && (Given(name) ==> r.fields.name == name)
              && (r.fields.colour.Some? <==> Given(colour)) && (Given(colour) ==> r.fields.colour == colour)
              && (r.fields.colour.Some? ==> IsHexColour(r.fields.colour.value))
              && r.fields.hoist == hoisted && r.fields.mentionable == mentionable
              && r.fields != EditFields(None, None, None, None)
  {
    if !editable then EditRefused(NotEditable)
    else if !Given(name) && !Given(colour) && hoisted.None? && mentionable.None? then EditRefused(NothingToEdit)
    else if Given(colour) && !IsHexColour(colour.value) then EditRefused(InvalidColour)
    else EditWith(EditFields(if Given(name) then name else None, if Given(colour) then colour else None,
                             hoisted, mentionable))
  }

  /** The guard of `/role delete` and `/role add`, then the platform call. */
  function ChangeCheck(editable: bool, ok: bool): (r: Reply)
    ensures r == Done <==> editable && ok
    ensures !editable ==> r == NotEditable
  {
    if !editable then NotEditable else if !ok then Failed else Done
  }

  /** `/role remove`: refused for a role the bot cannot manage or the member lacks. */
  function RemoveCheck(editable: bool, memberHasRole: bool, ok: bool): (r: Reply)
    ensures r == Done <==> editable && memberHasRole && ok
    ensures !editable ==> r == NotEditable
    ensures editable && !memberHasRole ==> r == LacksRole
  {
    if !editable then NotEditable else if !memberHasRole then LacksRole else if !ok then Failed else Done
  }

  /** A guild role as `/role list` sees it. */
  datatype GuildRole = GuildRole(id: string, position: int)

  function Position(r: GuildRole): int { r.position }

  /** `/role list`: sorted by position, highest first, without @everyone (whose id
      is the guild's id). */
  function ListedRoles(roles: seq<GuildRole>, guildId: string): seq<GuildRole>
  {
    Filter(SortDesc(roles, Position), (r: GuildRole) => r.id != guildId)
  }

  /** Keeping only some elements of a list sorted by key leaves it sorted. */
  lemma {:induction false} FilterKeepsSorted<T>(s: seq<T>, key: T -> int, p: T -> bool)
    requires SortedDesc(s, key)
    ensures SortedDesc(Filter(s, p), key)
  {
    if |s| > 0 {
      var t := s[1..];
      assert SortedDesc(t, key) by {
        forall i, j | 0 <= i < j < |t| ensures key(t[i]) >= key(t[j]) {
          assert t[i] == s[i + 1] && t[j] == s[j + 1];
        }
      }
      FilterKeepsSorted(t, key, p);
      var rest := Filter(t, p);
      if p(s[0]) {
        forall k | 0 <= k < |rest| ensures key(rest[k]) <= key(s[0]) {
          var j :| 0 <= j < |t| && t[j] == rest[k];
          assert s[j + 1] == rest[k];
        }
        ConsSorted(s[0], rest, key);
        assert Filter(s, p) == [s[0]] + rest;
      } else {
        assert Filter(s, p) == rest;
      }
    }
  }

  /** The list is ordered by position and holds exactly the roles other than @everyone. */
  lemma ListedRolesCorrect(roles: seq<GuildRole>, guildId: string)
    ensures SortedDesc(ListedRoles(roles, guildId), Position)
    ensures forall r :: r in ListedRoles(roles, guildId) <==> r in roles && r.id != guildId
  {
    SortDescCorrect(roles, Position);
    var sorted := SortDesc(roles, Position);
    FilterKeepsSorted(sorted, Position, (r: GuildRole) => r.id != guildId);
    forall r ensures r in ListedRoles(roles, guildId) <==> r in roles && r.id != guildId {
      assert r in roles <==> r in multiset(roles);
      assert r in sorted <==> r in multiset(sorted);
    }
  }
}
