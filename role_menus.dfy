/** The roleMenus list of a guild record and the `/rolemenu` subcommands
    (commands/roles/rolemenu.js). */
module RoleMenus {
  import opened Common

  /** A role option as the command receives it. */
  datatype RoleInfo = RoleInfo(id: string, name: string, editable: bool)

  /** One of the five role/description option pairs of `/rolemenu create`. */
  datatype Slot = Slot(role: Option<RoleInfo>, description: Option<string>)

  datatype MenuRole = MenuRole(id: string, name: string, description: string)

  datatype Menu = Menu(
    id: string, messageId: string, channelId: string, title: string, description: string,
    roles: seq<MenuRole>, allowMultiple: bool, createdAt: int, createdBy: string)

  /** A slot is collected when both its role and a non-empty description are given. */
  predicate Chosen(s: Slot) { s.role.Some? && s.description.Some? && s.description.value != "" }

  function Entry(s: Slot): MenuRole
    requires Chosen(s)
  {
    MenuRole(s.role.value.id, s.role.value.name, s.description.value)
  }

  /** The roles collected from the slots, in slot order. */
  function Collected(slots: seq<Slot>): seq<MenuRole>
  {
    if |slots| == 0 then []
    else Collected(slots[..|slots| - 1]) + (if Chosen(slots[|slots| - 1]) then [Entry(slots[|slots| - 1])] else [])
  }

  /** The collected roles are exactly the chosen slots, each turned into its entry. */
  lemma {:induction false} CollectedIsChosenSlots(slots: seq<Slot>)
    ensures |Collected(slots)| == |Filter(slots, Chosen)|
    ensures forall j :: 0 <= j < |Collected(slots)| ==> Collected(slots)[j] == Entry(Filter(slots, Chosen)[j])
  {
    if |slots| > 0 {
      var n := |slots| - 1;
      CollectedIsChosenSlots(slots[..n]);
      assert slots == slots[..n] + [slots[n]];
      FilterAppend(slots[..n], slots[n], Chosen);
    }
  }

  /** Whether some collected slot holds a role the bot cannot assign. */
  predicate SomeUneditable(slots: seq<Slot>)
  {
    exists k :: 0 <= k < |slots| && Chosen(slots[k]) && !slots[k].role.value.editable
  }

  /** The collection loop of `/rolemenu create`: None when it stops at a role the
      bot cannot assign, otherwise the collected roles. */
  method CollectRoles(slots: seq<Slot>) returns (r: Option<seq<MenuRole>>)
    ensures r.None? <==> SomeUneditable(slots)
    ensures r.Some? ==> r.value == Collected(slots)
  {
    var roles: seq<MenuRole> := [];
    for i := 0 to |slots|
      invariant roles == Collected(slots[..i])
      invariant !SomeUneditable(slots[..i])
    {
      var s := slots[i];
      if Chosen(s) {
        if !s.role.value.editable {
          assert slots[..i + 1][i] == s;
          return None;
        }
        roles := roles + [Entry(s)];
      }
      assert slots[..i + 1][..i] == slots[..i];
      assert forall k :: 0 <= k < i ==> slots[..i + 1][k] == slots[..i][k];
    }
    assert slots[..|slots|] == slots;
    return Some(roles);
  }

  /** setMaxValues: every role when several may be picked, else one. */
  function MaxValues(allowMultiple: bool, roleCount: nat): (n: nat)
    ensures allowMultiple ==> n == roleCount
    ensures !allowMultiple ==> n == 1
  {
    if allowMultiple then roleCount else 1
  }

  datatype SelectOption = SelectOption(caption: string, description: string, value: string)
  datatype SelectMenu = SelectMenu(customId: string, maxValues: nat, options: seq<SelectOption>)

  /** The select menu built by create, add and remove: one option per role, in order,
      its description cut to at most 100 UTF-16 code units. */
  function BuildSelect(menuId: string, roles: seq<MenuRole>, allowMultiple: bool): (m: SelectMenu)
    ensures m.customId == "rolemenu_" + menuId
    ensures m.maxValues == MaxValues(allowMultiple, |roles|)
    ensures |m.options| == |roles|
    ensures forall k :: 0 <= k < |roles| ==>
              && m.options[k].caption == roles[k].name && m.options[k].value == roles[k].id
              && JsLength(m.options[k].description) <= 100
              && (JsLength(roles[k].description) <= 100 ==> m.options[k].description == roles[k].description)
  {
    SelectMenu("rolemenu_" + menuId, MaxValues(allowMultiple, |roles|),
               seq(|roles|, k requires 0 <= k < |roles| =>
                 SelectOption(roles[k].name, Truncate100(roles[k].description), roles[k].id)))
  }

  /** No role appears twice in a menu. */
  predicate UniqueRoleIds(roles: seq<MenuRole>)
  {
    forall i, j :: 0 <= i < j < |roles| ==> roles[i].id != roles[j].id
  }

  predicate HasMenuId(id: string, m: Menu) { m.id == id }
  predicate HasRoleId(id: string, r: MenuRole) { r.id == id }

  datatype Reply =
    | Done
    | RoleNotEditable  // a role the bot cannot assign
    | SendFailed       // the menu message could not be posted
    | UnknownMenu      // no menu with that id
    | AlreadyInMenu    // add of a role the menu has
    | NotInMenu        // remove of a role the menu lacks
    | LastRole         // remove of the only role
    | EditFailed       // the menu message could not be updated
    | NoMenus          // list with nothing to show

  class Registry {
    var menus: seq<Menu>

    /** The state a freshly created section is in. */
    ghost predicate Initial()
      reads this
    {
      menus == []
    }

    constructor ()
      ensures Initial()
    {
      menus := [];
    }

    /** `/rolemenu create`: the roles are collected, the menu is posted and then
        appended. `menuId` is the generated id, `posted` the id of the posted
        message, or None when sending failed. */
    method Create(menuId: string, title: string, description: string, channel: string, slots: seq<Slot>,
                  multiple: Option<bool>, posted: Option<string>, author: string, now: int)
      returns (r: Reply)
      modifies this
      ensures r == (if SomeUneditable(slots) then RoleNotEditable else if posted.None? then SendFailed else Done)
      ensures menus == if r == Done then old(menus) + [Menu(menuId, posted.value, channel, title, description,
                                                           Collected(slots), multiple == Some(true), now, author)]
                       else old(menus)
    {
      var roles := CollectRoles(slots);
      if roles.None? {
        return RoleNotEditable;
      }
      if posted.None? {
        return SendFailed;
      }
      menus := menus + [Menu(menuId, posted.value, channel, title, description, roles.value,
                             multiple == Some(true), now, author)];
      return Done;
    }

    /** `/rolemenu add`: the role is appended to the menu in memory before the menu
        message is edited, so it stays when `editOk` is false. */
    method Add(menuId: string, role: RoleInfo, description: string, editOk: bool) returns (r: Reply)
      modifies this
      ensures var i := FindIndex(old(menus), m => HasMenuId(menuId, m));
        && (i == -1 ==> r == UnknownMenu && menus == old(menus))
        && (i != -1 ==>
              var roles := old(menus)[i].roles;
              && r == (if exists k :: 0 <= k < |roles| && roles[k].id == role.id then AlreadyInMenu
                       else if !role.editable then RoleNotEditable
                       else if editOk then Done else EditFailed)
              && menus == (if r in {AlreadyInMenu, RoleNotEditable} then old(menus)
                           else old(menus)[i := old(menus)[i].(roles := roles + [MenuRole(role.id, role.name, description)])])
              && (UniqueRoleIds(roles) ==> UniqueRoleIds(menus[i].roles)))
    {
      var i := FindIndex(menus, m => HasMenuId(menuId, m));
      if i == -1 {
        return UnknownMenu;
      }
      var roles := menus[i].roles;
      if exists k :: 0 <= k < |roles| && roles[k].id == role.id {
        return AlreadyInMenu;
      }
      if !role.editable {
        return RoleNotEditable;
      }
      menus := menus[i := menus[i].(roles := roles + [MenuRole(role.id, role.name, description)])];
      r := if editOk then Done else EditFailed;
    }

    /** `/rolemenu remove`: the role is spliced out before the last-role check, so a
        refused removal of the only role still leaves the menu without it. */
    method Remove(menuId: string, roleId: string, editOk: bool) returns (r: Reply)
      modifies this
      ensures var i := FindIndex(old(menus), m => HasMenuId(menuId, m));
        && (i == -1 ==> r == UnknownMenu && menus == old(menus))
        && (i != -1 ==>
              var roles := old(menus)[i].roles;
              var j := FindIndex(roles, x => HasRoleId(roleId, x));
              && (j == -1 ==> r == NotInMenu && menus == old(menus))
              && (j != -1 ==>
                    && menus == old(menus)[i := old(menus)[i].(roles := RemoveAt(roles, j))]
                    && r == (if |roles| == 1 then LastRole else if editOk then Done else EditFailed)))
      ensures r == LastRole ==> exists i :: 0 <= i < |menus| && menus[i].id == menuId && menus[i].roles == []
    {
      var i := FindIndex(menus, m => HasMenuId(menuId, m));
      if i == -1 {
        return UnknownMenu;
      }
      var j := FindIndex(menus[i].roles, x => HasRoleId(roleId, x));
      if j == -1 {
        return NotInMenu;
      }
      menus := menus[i := menus[i].(roles := RemoveAt(menus[i].roles, j))];
      if |menus[i].roles| == 0 {
        return LastRole;
      }
      r := if editOk then Done else EditFailed;
    }

    /** `/rolemenu delete`: the first menu with the id is dropped; the deletion of its
        message is best effort. */
    method Delete(menuId: string) returns (r: Reply)
      modifies this
      ensures var i := FindIndex(old(menus), m => HasMenuId(menuId, m));
        && r == (if i == -1 then UnknownMenu else Done)
        && menus == if i == -1 then old(menus) else RemoveAt(old(menus), i)
    {
      var i := FindIndex(menus, m => HasMenuId(menuId, m));
      if i == -1 {
        return UnknownMenu;
      }
      menus := RemoveAt(menus, i);
      return Done;
    }

    /** `/rolemenu list`: refused when there are no menus. */
    function ListCheck(): (r: Reply)
      reads this
      ensures r == Done <==> |menus| > 0
      ensures r != Done ==> r == NoMenus
    {
      if |menus| == 0 then NoMenus else Done
    }
  }
}
