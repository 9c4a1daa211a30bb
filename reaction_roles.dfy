/** Reaction roles: the `/reactionrole create` collection of role/emoji slots
    (commands/reaction-roles/setup.js) and the lookup the reaction events perform
    (events/messageReactionAdd.js, events/messageReactionRemove.js).

    The two sides use different shapes: setup writes a top-level map from message
    id to a list of bindings, while the reaction events read a per-guild list of
    entries that carry their own message id. Both shapes are modelled as written. */
module ReactionRoles {
  import opened Common

  datatype RoleInfo = RoleInfo(id: string, name: string, editable: bool)

  /** One of the three role/emoji option pairs. */
  datatype Slot = Slot(role: Option<RoleInfo>, emoji: Option<string>)

  /** What setup stores per role: `{roleId, emoji}`. */
  datatype Binding = Binding(roleId: string, emoji: string)

  /** What the reaction events look for in a guild record. */
  datatype GuildEntry = GuildEntry(messageId: string, emoji: string, roleId: string)

  predicate Chosen(s: Slot) { s.role.Some? && s.emoji.Some? && s.emoji.value != "" }

  function BindingOf(s: Slot): Binding
    requires Chosen(s)
  {
    Binding(s.role.value.id, s.emoji.value)
  }

  /** The bindings collected from the slots, in slot order. */
  function Bindings(slots: seq<Slot>): seq<Binding>
  {
    if |slots| == 0 then []
    else Bindings(slots[..|slots| - 1]) + (if Chosen(slots[|slots| - 1]) then [BindingOf(slots[|slots| - 1])] else [])
  }

  /** The bindings are exactly the chosen slots, each giving its role and emoji. */
  lemma {:induction false} BindingsAreChosenSlots(slots: seq<Slot>)
    ensures |Bindings(slots)| == |Filter(slots, Chosen)|
    ensures forall j :: 0 <= j < |Bindings(slots)| ==> Bindings(slots)[j] == BindingOf(Filter(slots, Chosen)[j])
  {
    if |slots| > 0 {
      var n := |slots| - 1;
      BindingsAreChosenSlots(slots[..n]);
      assert slots == slots[..n] + [slots[n]];
      FilterAppend(slots[..n], slots[n], Chosen);
    }
  }

  predicate SomeUneditable(slots: seq<Slot>)
  {
    exists k :: 0 <= k < |slots| && Chosen(slots[k]) && !slots[k].role.value.editable
  }

  /** The collection loop: None when it stops at a role the bot cannot assign. */
  method Collect(slots: seq<Slot>) returns (r: Option<seq<Binding>>)
    ensures r.None? <==> SomeUneditable(slots)
    ensures r.Some? ==> r.value == Bindings(slots)
  {
    var bindings: seq<Binding> := [];
    for i := 0 to |slots|
      invariant bindings == Bindings(slots[..i])
      invariant !SomeUneditable(slots[..i])
    {
      var s := slots[i];
      if Chosen(s) {
        if !s.role.value.editable {
          assert slots[..i + 1][i] == s;
          return None;
        }
        bindings := bindings + [BindingOf(s)];
      }
      assert slots[..i + 1][..i] == slots[..i];
      assert forall k :: 0 <= k < i ==> slots[..i + 1][k] == slots[..i][k];
    }
    assert slots[..|slots|] == slots;
    return Some(bindings);
  }

  /** One `role_<id>` button per binding, in order. */
  function ButtonIds(bindings: seq<Binding>): (ids: seq<string>)
    ensures |ids| == |bindings|
    ensures forall k :: 0 <= k < |bindings| ==> ids[k] == "role_" + bindings[k].roleId
  {
    seq(|bindings|, k requires 0 <= k < |bindings| => "role_" + bindings[k].roleId)
  }

  /** A button id names the role it toggles: the id after "role_". */
  lemma ButtonIdRoundTrip(bindings: seq<Binding>, k: nat)
    requires k < |bindings|
    ensures StartsWith(ButtonIds(bindings)[k], "role_")
    ensures ButtonIds(bindings)[k][5..] == bindings[k].roleId
  {
    assert ButtonIds(bindings)[k][..5] == "role_";
  }

  /** `reaction.emoji.id || reaction.emoji.name`. */
  function EmojiKey(emojiId: Option<string>, emojiName: string): (k: string)
    ensures emojiId.Some? && emojiId.value != "" ==> k == emojiId.value
    ensures emojiId.None? || emojiId.value == "" ==> k == emojiName
  {
    OrDefault(emojiId, emojiName)
  }

  predicate Matches(messageId: string, key: string, e: GuildEntry) { e.messageId == messageId && e.emoji == key }

  /** The role of the first guild entry for that message and emoji key, if any. */
  function LookupRole(entries: Option<seq<GuildEntry>>, messageId: string, key: string): (r: Option<string>)
    ensures entries.None? ==> r.None?
    ensures r.Some? ==> exists k :: 0 <= k < |entries.value| && entries.value[k].roleId == r.value &&
                                    Matches(messageId, key, entries.value[k]) &&
                                    forall j :: 0 <= j < k ==> !Matches(messageId, key, entries.value[j])
    ensures entries.Some? && r.None? ==> forall k :: 0 <= k < |entries.value| ==> !Matches(messageId, key, entries.value[k])
  {
    if entries.None? then None
    else
      var i := FindIndex(entries.value, e => Matches(messageId, key, e));
      if i == -1 then None else Some(entries.value[i].roleId)
  }
}
