/** The levelSystem section of a guild record and the `/leveling` subcommands
    (commands/leveling/setup.js). */
module Leveling {
  import opened Common

  datatype Reply = Done | RoleNotEditable | NoRewardForLevel

  class Settings {
    var enabled: bool
    var announceChannel: Option<string>
    /** Level reached -> id of the role awarded at that level. */
    var roles: map<int, string>

    /** The state a freshly created section is in. */
    ghost predicate Initial()
      reads this
    {
      !enabled && announceChannel == None && roles == map[]
    }

    /** The section as getGuild and the setup command create it. */
    constructor ()
      ensures Initial()
    {
      enabled := false;
      announceChannel := None;
      roles := map[];
    }

    /** Whether `roles[level]` is a truthy role id. */
    predicate HasReward(level: int)
      reads this
    {
      level in roles && roles[level] != ""
    }

    method Enable(channel: Option<string>)
      modifies this`enabled, this`announceChannel
      ensures enabled && announceChannel == channel
    {
      enabled := true;
      announceChannel := channel;
    }

    method Disable()
      modifies this`enabled
      ensures !enabled
    {
      enabled := false;
    }

    /** Sets the reward for `level`, replacing any earlier one, unless the bot
        cannot manage the role. */
    method AddRole(level: int, roleId: string, editable: bool) returns (r: Reply)
      modifies this`roles
      ensures r == (if editable then Done else RoleNotEditable)
      ensures roles == if editable then old(roles)[level := roleId] else old(roles)
    {
      if !editable {
        return RoleNotEditable;
      }
      roles := roles[level := roleId];
      return Done;
    }

    method RemoveRole(level: int) returns (r: Reply)
      modifies this`roles
      ensures r == (if old(HasReward(level)) then Done else NoRewardForLevel)
      ensures roles == if r == Done then old(roles) - {level} else old(roles)
      ensures level !in roles || r == NoRewardForLevel
    {
      if !HasReward(level) {
        return NoRewardForLevel;
      }
      roles := roles - {level};
      return Done;
    }
  }
}
