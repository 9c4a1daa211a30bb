/** The guild's autoResponders section, the `/autoresponder` subcommands
    (commands/autoresponder/autoresponder.js) and the matching loop run on every
    guild message (`handleAutoResponders` in events/messageCreate.js). */
module AutoResponders {
  import opened Common

  datatype Responder = Responder(
    trigger: string, response: string, exact: bool, caseSensitive: bool,
    createdBy: string, createdAt: int, uses: nat)

  datatype Reply = Done | AlreadyExists | UnknownTrigger | NoResponders

  /** The duplicate test of add and the lookup of remove: triggers equal ignoring case. */
  predicate SameTrigger(trigger: string, r: Responder)
  {
    ToLower(r.trigger) == ToLower(trigger)
  }

  /** Whether a responder fires for a message: both sides are folded unless it is
      case sensitive; exact responders need equality, the others a substring. */
  predicate Fires(r: Responder, content: string)
  {
    var c := if r.caseSensitive then content else ToLower(content);
    var t := if r.caseSensitive then r.trigger else ToLower(r.trigger);
    if r.exact then c == t else Contains(c, t)
  }

  /** A case-insensitive responder does not care about the case of the message. */
  lemma FiresIgnoringCase(r: Responder, content: string)
    requires !r.caseSensitive
    ensures Fires(r, content) <==> Fires(r, ToLower(content))
  {
    ToLowerIdempotent(content);
  }

  /** A responder whose trigger is the whole message fires whatever its mode. */
  lemma TriggerItselfFires(r: Responder)
    ensures Fires(r, r.trigger)
  {
    var t := if r.caseSensitive then r.trigger else ToLower(r.trigger);
    assert OccursAt(t, t, 0);
  }

  /** The `|| false` defaults of the boolean options. */
  function OrFalse(b: Option<bool>): (r: bool)
    ensures r <==> b == Some(true)
  {
    b.Some? && b.value
  }

  class Registry {
    var enabled: bool
    var responses: seq<Responder>

    /** No two triggers are equal ignoring case. */
    ghost predicate Valid()
      reads this
    {
      forall i, j :: 0 <= i < j < |responses| ==> ToLower(responses[i].trigger) != ToLower(responses[j].trigger)
    }

    /** The state a freshly created section is in. */
    ghost predicate Initial()
      reads this
    {
      !enabled && responses == []
    }

    constructor ()
      ensures Initial() && Valid()
    {
      enabled := false;
      responses := [];
    }

    method Add(trigger: string, response: string, exact: Option<bool>, caseSensitive: Option<bool>,
               user: string, now: int) returns (r: Reply)
      modifies this`responses
      ensures r == (if FindIndex(old(responses), x => SameTrigger(trigger, x)) == -1 then Done else AlreadyExists)
      ensures responses == if r == Done then old(responses) + [Responder(trigger, response, OrFalse(exact), OrFalse(caseSensitive), user, now, 0)]
                           else old(responses)
      ensures old(Valid()) ==> Valid()
    {
      var i := FindIndex(responses, x => SameTrigger(trigger, x));
      if i != -1 {
        return AlreadyExists;
      }
      responses := responses + [Responder(trigger, response, OrFalse(exact), OrFalse(caseSensitive), user, now, 0)];
      return Done;
    }

    /** Removes the first responder whose trigger matches ignoring case. */
    method Remove(trigger: string) returns (r: Reply)
      modifies this`responses
      ensures var i := FindIndex(old(responses), x => SameTrigger(trigger, x));
        && r == (if i == -1 then UnknownTrigger else Done)
        && responses == if i == -1 then old(responses) else RemoveAt(old(responses), i)
      ensures old(Valid()) ==> Valid()
    {
      var i := FindIndex(responses, x => SameTrigger(trigger, x));
      if i == -1 {
        return UnknownTrigger;
      }
      responses := RemoveAt(responses, i);
      return Done;
    }

    /** `/autoresponder list`: each response as shown, cut to 100 UTF-16 code units. */
    function Listed(): (r: Option<seq<string>>)
      reads this
      ensures r.None? <==> |responses| == 0
      ensures r.Some? ==> |r.value| == |responses|
      ensures r.Some? ==> forall k :: 0 <= k < |responses| ==>
                JsLength(r.value[k]) <= 100 && (JsLength(responses[k].response) <= 100 ==> r.value[k] == responses[k].response)
    {
      if |responses| == 0 then None
      else
        var rs := responses;
        Some(seq(|rs|, k requires 0 <= k < |rs| => Truncate100(rs[k].response)))
    }

    method SetEnabled(on: bool)
      modifies this`enabled
      ensures enabled == on
    {
      enabled := on;
    }

    /** handleAutoResponders: the responders are tried in order and only the first
        that fires counts a use and sends its response. */
    method Respond(content: string) returns (sent: Option<string>)
      modifies this`responses
      ensures var i := FindIndex(old(responses), x => Fires(x, content));
        && (i == -1 ==> sent == None && responses == old(responses))
        && (i != -1 ==> sent == Some(old(responses)[i].response)
                        && responses == old(responses)[i := old(responses)[i].(uses := old(responses)[i].uses + 1)])
      ensures old(Valid()) ==> Valid()
    {
      ghost var first := FindIndex(responses, x => Fires(x, content));
      var i := 0;
      while i < |responses|
        invariant 0 <= i <= |responses|
        invariant forall k :: 0 <= k < i ==> !Fires(responses[k], content)
        invariant first == -1 || i <= first
      {
        if Fires(responses[i], content) {
          assert first == i;
          sent := Some(responses[i].response);
          responses := responses[i := responses[i].(uses := responses[i].uses + 1)];
          return;
        }
        i := i + 1;
      }
      sent := None;
    }
  }
}
