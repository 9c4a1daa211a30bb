/** The guild's `customCommands` dictionary and `/customcommand` create, delete and
    list (commands/custom/create.js). Names are folded to lower case wherever they
    are used as a key, so `!Hello` and `!hello` are the same command. */
module CustomCommands {
  import opened Common

  datatype Command = Command(response: string, createdBy: string, createdAt: int)

  datatype Reply = Done | AlreadyExists | UnknownCommand

  class Registry {
    var commands: map<string, Command>

    /** Every stored name is in lower case, as create folds it. */
    ghost predicate Valid()
      reads this
    {
      forall name :: name in commands ==> IsLowerCase(name)
    }

    /** The state a freshly created section is in. */
    ghost predicate Initial()
      reads this
    {
      commands == map[]
    }

    constructor ()
      ensures Initial() && Valid()
    {
      commands := map[];
    }

    method Create(name: string, response: string, user: string, now: int) returns (r: Reply)
      modifies this
      ensures var key := ToLower(name);
        && (r == Done <==> key !in old(commands))
        && (r == Done ==> commands == old(commands)[key := Command(response, user, now)])
        && (r != Done ==> r == AlreadyExists && commands == old(commands))
      ensures old(Valid()) ==> Valid()
    {
      var key := ToLower(name);
      if key in commands {
        return AlreadyExists;
      }
      commands := commands[key := Command(response, user, now)];
      return Done;
    }

    method Delete(name: string) returns (r: Reply)
      modifies this
      ensures var key := ToLower(name);
        && (r == Done <==> key in old(commands))
        && (r == Done ==> commands == old(commands) - {key})
        && (r != Done ==> r == UnknownCommand && commands == old(commands))
      ensures old(Valid()) ==> Valid()
    {
      var key := ToLower(name);
      if key !in commands {
        return UnknownCommand;
      }
      commands := commands - {key};
      return Done;
    }
  }
}
