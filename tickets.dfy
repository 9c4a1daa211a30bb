/** The tickets section of a guild record: the `/ticket` subcommands
    (commands/tickets/ticket.js) and the ticket buttons and modal handled by
    events/interactionCreate.js. A guild without the section is refused by the callers. */
module Tickets {
  import opened Common

  const DefaultWelcome: string := "Thank you for creating a ticket. Support will be with you shortly."

  /** An open ticket, keyed in `activeTickets` by its channel id. */
  datatype Ticket = Ticket(userId: string, subject: string, createdAt: int)

  /** A posted "create ticket" panel. */
  datatype Panel = Panel(messageId: string, channelId: string)

  datatype Reply =
    | Done
    | NotEnabled        // the ticket system is missing or disabled
    | NotATicket        // the channel is not an open ticket
    | MemberMissing     // the user to add is not in the guild
    | IsCreator         // remove of the ticket's own creator
    | AlreadyOpen       // the user already has an open ticket
    | ShowModal         // the create button opens the subject/description form
    | CategoryMissing   // the configured category could not be fetched
    | RoleMissing       // the configured support role could not be fetched
    | CreateFailed      // creating or greeting the channel failed

  class Settings {
    var enabled: bool
    var supportRoleId: Option<string>
    var categoryId: Option<string>
    var welcomeMessage: string
    var panels: seq<Panel>
    var activeTickets: map<string, Ticket>

    /** A user has at most one open ticket. */
    ghost predicate Valid()
      reads this
    {
      forall c, d :: c in activeTickets && d in activeTickets && activeTickets[c].userId == activeTickets[d].userId ==> c == d
    }

    predicate HasOpenTicket(user: string)
      reads this
    {
      exists c :: c in activeTickets && activeTickets[c].userId == user
    }

    /** The state a freshly created section is in. */
    ghost predicate Initial()
      reads this
    {
      && !enabled && supportRoleId == None && categoryId == None
      && welcomeMessage == DefaultWelcome && panels == [] && activeTickets == map[]
    }

    constructor ()
      ensures Initial() && Valid()
    {
      enabled := false;
      supportRoleId := None;
      categoryId := None;
      welcomeMessage := DefaultWelcome;
      panels := [];
      activeTickets := map[];
    }

    /** `welcome_message || default`. Open tickets and panels are kept. */
    method Setup(supportRole: string, category: string, welcome: Option<string>)
      modifies this`enabled, this`supportRoleId, this`categoryId, this`welcomeMessage
      ensures enabled && supportRoleId == Some(supportRole) && categoryId == Some(category)
      ensures welcomeMessage == if welcome.Some? && welcome.value != "" then welcome.value else DefaultWelcome
    {
      enabled := true;
      supportRoleId := Some(supportRole);
      categoryId := Some(category);
      welcomeMessage := if welcome.Some? && welcome.value != "" then welcome.value else DefaultWelcome;
    }

    /** `/ticket panel`: records the posted panel message. */
    method AddPanel(messageId: string, channel: string) returns (r: Reply)
      modifies this`panels
      ensures r == (if old(enabled) then Done else NotEnabled)
      ensures panels == if r == Done then old(panels) + [Panel(messageId, channel)] else old(panels)
    {
      if !enabled {
        return NotEnabled;
      }
      panels := panels + [Panel(messageId, channel)];
      return Done;
    }

    /** The guard of `/ticket add`; the permission change itself is not state. */
    function AddCheck(channel: string, memberFound: bool): (r: Reply)
      reads this
      ensures r == Done <==> channel in activeTickets && memberFound
      ensures r == NotATicket <==> channel !in activeTickets
      ensures r in {Done, NotATicket, MemberMissing}
    {
      if channel !in activeTickets then NotATicket
      else if !memberFound then MemberMissing
      else Done
    }

    /** The guard of `/ticket remove`: never the ticket's creator. */
    function RemoveCheck(channel: string, user: string): (r: Reply)
      reads this
      ensures r == Done <==> channel in activeTickets && activeTickets[channel].userId != user
      ensures r == IsCreator <==> channel in activeTickets && activeTickets[channel].userId == user
      ensures r == NotATicket <==> channel !in activeTickets
    {
      if channel !in activeTickets then NotATicket
      else if activeTickets[channel].userId == user then IsCreator
      else Done
    }

    /** The guard of `/ticket close`, which then only asks for confirmation. */
    function CloseCheck(channel: string): (r: Reply)
      reads this
      ensures r == Done <==> channel in activeTickets
      ensures r != Done ==> r == NotATicket
    {
      if channel in activeTickets then Done else NotATicket
    }

    /** The ticket form submitted: the guards are checked again, then the channel is
        created and the ticket recorded under its id. `created` is the id of the new
        channel when creating and greeting it succeeded. */
    method SubmitTicket(user: string, subject: string, now: int,
                        categoryFound: bool, roleFound: bool, created: Option<string>)
      returns (r: Reply)
      modifies this`activeTickets
      ensures r == (if !old(enabled) then NotEnabled
                    else if old(HasOpenTicket(user)) then AlreadyOpen
                    else if !categoryFound then CategoryMissing
                    else if !roleFound then RoleMissing
                    else if created.None? then CreateFailed
                    else Done)
      ensures activeTickets == if r == Done then old(activeTickets)[created.value := Ticket(user, subject, now)]
                               else old(activeTickets)
      ensures old(Valid()) ==> Valid()
      ensures r == Done ==> HasOpenTicket(user)
    {
      if !enabled {
        return NotEnabled;
      }
      if HasOpenTicket(user) {
        return AlreadyOpen;
      }
      if !categoryFound {
        return CategoryMissing;
      }
      if !roleFound {
        return RoleMissing;
      }
      if created.None? {
        return CreateFailed;
      }
      activeTickets := activeTickets[created.value := Ticket(user, subject, now)];
      assert activeTickets[created.value].userId == user;
      return Done;
    }

    /** The `confirm_close` button. The entry is dropped after the delayed channel
        deletion; `updated` is whether the confirmation message could be updated
        and `deleted` whether the channel deletion succeeded. */
    method ConfirmClose(channel: string, updated: bool, deleted: bool) returns (r: Reply)
      modifies this`activeTickets
      ensures r == (if !old(enabled) then NotEnabled
                    else if channel !in old(activeTickets) then NotATicket
                    else Done)
      ensures activeTickets == if r == Done && updated && deleted then old(activeTickets) - {channel}
                               else old(activeTickets)
      ensures old(Valid()) ==> Valid()
    {
      if !enabled {
        return NotEnabled;
      }
      if channel !in activeTickets {
        return NotATicket;
      }
      if updated && deleted {
        activeTickets := activeTickets - {channel};
      }
      return Done;
    }
  }

  /** The `create_ticket` button: it only opens the form, once per user. */
  function CreateButton(t: Settings?, user: string): (r: Reply)
    reads t
    ensures r == NotEnabled <==> t == null || !t.enabled
    ensures r == AlreadyOpen <==> t != null && t.enabled && t.HasOpenTicket(user)
    ensures r == ShowModal <==> t != null && t.enabled && !t.HasOpenTicket(user)
  {
    if t == null || !t.enabled then NotEnabled
    else if t.HasOpenTicket(user) then AlreadyOpen
    else ShowModal
  }
}
