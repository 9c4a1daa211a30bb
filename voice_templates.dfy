/** A user's saved voice channel templates and the `/template` subcommands
    (commands/voice/template.js). The templates live in the user record; saving and
    loading also consult the guild's Voice Master registry. */
module VoiceTemplates {
  import opened Common
  import opened VoiceMaster

  /** The live channel settings captured by save. */
  datatype Template = Template(name: string, userLimit: int, bitrate: int, region: Option<string>, createdAt: int)

  class Registry {
    var templates: map<string, Template>

    /** Every saved limit is one a voice channel accepts, so loading keeps the
        registry's limits valid. */
    ghost predicate Valid()
      reads this
    {
      forall n :: n in templates ==> ValidLimit(templates[n].userLimit)
    }

    /** The state a freshly created section is in. */
    ghost predicate Initial()
      reads this
    {
      templates == map[]
    }

    constructor ()
      ensures Initial() && Valid()
    {
      templates := map[];
    }

    /** `/template list`: the saved names, or a refusal when there are none. */
    function List(): (r: Result<set<string>>)
      reads this
      ensures r.Failure? <==> templates == map[]
      ensures r.Failure? ==> r.reply == NoTemplates
      ensures r.Success? ==> r.value == templates.Keys && r.value != {}
    {
      if templates == map[] then Failure(NoTemplates)
      else
        var n :| n in templates;
        assert n in templates.Keys;
        Success(templates.Keys)
    }

    /** `/template save` from the caller's current voice channel `channel`, whose
        live settings are `name`, `userLimit`, `bitrate` and `region`. */
    method Save(vm: Settings?, channel: Option<string>, caller: string, templateName: string,
                name: string, userLimit: int, bitrate: int, region: Option<string>, now: int)
      returns (r: Reply)
      modifies this
      ensures var gate := RegisteredOwnerGate(Classify(vm, channel, caller));
        r == (if gate.Some? then gate.value
              else if templateName in old(templates) then AlreadyExists
              else Done)
      ensures templates == if r == Done then old(templates)[templateName := Template(name, userLimit, bitrate, region, now)]
                           else old(templates)
      ensures r == AlreadyExists ==> templates[templateName] == old(templates)[templateName]
      ensures old(Valid()) && ValidLimit(userLimit) ==> Valid()
    {
      var gate := RegisteredOwnerGate(Classify(vm, channel, caller));
      if gate.Some? {
        return gate.value;
      }
      if templateName in templates {
        return AlreadyExists;
      }
      templates := templates[templateName := Template(name, userLimit, bitrate, region, now)];
      return Done;
    }

    /** `/template load`: the template's name and limit are copied into the
        channel's registry entry when the platform accepted them (`ok`). */
    method Load(vm: Settings?, channel: Option<string>, caller: string, templateName: string, ok: bool)
      returns (r: Reply)
      modifies vm
      ensures var gate := RegisteredOwnerGate(old(Classify(vm, channel, caller)));
        r == (if gate.Some? then gate.value
              else if templateName !in templates then UnknownTemplate
              else if !ok then Failed
              else Done)
      ensures r == Done ==>
                var c := old(vm.channels)[channel.value];
                vm.channels == old(vm.channels)[channel.value :=
                  c.(name := templates[templateName].name, userLimit := templates[templateName].userLimit)]
      ensures r != Done && vm != null ==> vm.channels == old(vm.channels)
      ensures vm != null ==> vm.enabled == old(vm.enabled) && vm.categoryId == old(vm.categoryId) &&
                             vm.createChannelId == old(vm.createChannelId)
      ensures vm != null && old(vm.Valid()) && Valid() ==> vm.Valid()
    {
      var gate := RegisteredOwnerGate(Classify(vm, channel, caller));
      if gate.Some? {
        return gate.value;
      }
      if templateName !in templates {
        return UnknownTemplate;
      }
      if !ok {
        return Failed;
      }
      var t := templates[templateName];
      var c := vm.channels[channel.value];
      vm.channels := vm.channels[channel.value := c.(name := t.name, userLimit := t.userLimit)];
      return Done;
    }

    method Delete(templateName: string) returns (r: Reply)
      modifies this
      ensures r == (if templateName in old(templates) then Done else UnknownTemplate)
      ensures templates == if r == Done then old(templates) - {templateName} else old(templates)
      ensures templateName !in templates
      ensures old(Valid()) ==> Valid()
    {
      if templateName !in templates {
        return UnknownTemplate;
      }
      templates := templates - {templateName};
      return Done;
    }
  }

  datatype Result<T> = Success(value: T) | Failure(reply: Reply)
}
