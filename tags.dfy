/** The guild's `tags` dictionary and the `/tag` subcommands (commands/tags/tag.js),
    plus the use counter bumped when a `?name` message hits a tag. Names are folded
    to lower case in every subcommand. */
module Tags {
  import opened Common
  import opened Sorting

  datatype Tag = Tag(content: string, createdBy: string, createdAt: int, uses: nat,
                     editedBy: Option<string>, editedAt: Option<int>)

  datatype Reply = Done | AlreadyExists | UnknownTag | NoPermission | NoTags

  /** Edit and delete: the tag's creator, or a holder of ManageMessages. */
  predicate MayChange(t: Tag, user: string, manageMessages: bool)
  {
    t.createdBy == user || manageMessages
  }

  /** The sort key of `/tag list`: a name's use count. */
  function UsesOf(tags: map<string, Tag>): string -> int
  {
    name => if name in tags then tags[name].uses else 0
  }

  /** A listing of the keys of `tags`, each once (what Object.keys gives). */
  predicate ListsKeys(tags: map<string, Tag>, names: seq<string>)
  {
    NoDups(names) && (forall n :: n in names ==> n in tags) && (forall n :: n in tags ==> n in names)
  }

  /** `/tag list`: `names` is the key order the dictionary enumerates; the names are
      shown by use count, most used first, ties in that order. */
  function ListOrder(tags: map<string, Tag>, names: seq<string>): (r: Option<seq<string>>)
    requires ListsKeys(tags, names)
    ensures r.None? <==> |tags| == 0
    ensures r.Some? ==> SortedDesc(r.value, UsesOf(tags)) && multiset(r.value) == multiset(names)
    ensures r.Some? ==> forall n :: n in r.value <==> n in tags
  {
    if names == [] then
      assert tags.Keys == {};
      None
    else
      assert names[0] in tags;
      SortDescCorrect(names, UsesOf(tags));
      var sorted := SortDesc(names, UsesOf(tags));
      assert forall n :: n in sorted <==> n in multiset(names);
      Some(sorted)
  }

  /** The tags after one use of `key`: its use count goes up by one and nothing
      else changes. */
  function Used(tags: map<string, Tag>, key: string): (r: map<string, Tag>)
    requires key in tags
    ensures r.Keys == tags.Keys
    ensures r[key] == tags[key].(uses := tags[key].uses + 1)
    ensures forall k :: k in tags && k != key ==> r[k] == tags[k]
  {
    tags[key := tags[key].(uses := tags[key].uses + 1)]
  }

  class Registry {
    var tags: map<string, Tag>

    /** Every stored name is in lower case. */
    ghost predicate Valid()
      reads this
    {
      forall name :: name in tags ==> IsLowerCase(name)
    }

    /** The state a freshly created section is in. */
    ghost predicate Initial()
      reads this
    {
      tags == map[]
    }

    constructor ()
      ensures Initial() && Valid()
    {
      tags := map[];
    }

    method Create(name: string, content: string, user: string, now: int) returns (r: Reply)
      modifies this
      ensures var key := ToLower(name);
        && r == (if key in old(tags) then AlreadyExists else Done)
        && tags == if r == Done then old(tags)[key := Tag(content, user, now, 0, None, None)] else old(tags)
      ensures old(Valid()) ==> Valid()
    {
      var key := ToLower(name);
      if key in tags {
        return AlreadyExists;
      }
      tags := tags[key := Tag(content, user, now, 0, None, None)];
      return Done;
    }

    /** The guard shared by edit and delete. */
    function ChangeCheck(name: string, user: string, manageMessages: bool): (r: Reply)
      reads this
      ensures var key := ToLower(name);
        && (r == Done <==> key in tags && MayChange(tags[key], user, manageMessages))
        && (r == UnknownTag <==> key !in tags)
        && r in {Done, UnknownTag, NoPermission}
    {
      var key := ToLower(name);
      if key !in tags then UnknownTag
      else if !MayChange(tags[key], user, manageMessages) then NoPermission
      else Done
    }

    /** `/tag edit`: new content and the editor; the use count is kept. */
    method Edit(name: string, content: string, user: string, manageMessages: bool, now: int) returns (r: Reply)
      modifies this
      ensures r == old(ChangeCheck(name, user, manageMessages))
      ensures var key := ToLower(name);
        tags == if r == Done then old(tags)[key := old(tags)[key].(content := content, editedBy := Some(user), editedAt := Some(now))]
                else old(tags)
      ensures r == Done ==> tags[ToLower(name)].uses == old(tags)[ToLower(name)].uses
      ensures tags.Keys == old(tags).Keys
      ensures old(Valid()) ==> Valid()
    {
      r := ChangeCheck(name, user, manageMessages);
      if r != Done {
        return;
      }
      var key := ToLower(name);
      tags := tags[key := tags[key].(content := content, editedBy := Some(user), editedAt := Some(now))];
    }

    method Delete(name: string, user: string, manageMessages: bool) returns (r: Reply)
      modifies this
      ensures r == old(ChangeCheck(name, user, manageMessages))
      ensures tags == if r == Done then old(tags) - {ToLower(name)} else old(tags)
      ensures old(Valid()) ==> Valid()
    {
      r := ChangeCheck(name, user, manageMessages);
      if r != Done {
        return;
      }
      tags := tags - {ToLower(name)};
    }

    /** `/tag info`. */
    function Info(name: string): (t: Option<Tag>)
      reads this
      ensures t.Some? <==> ToLower(name) in tags
      ensures t.Some? ==> t.value == tags[ToLower(name)]
    {
      var key := ToLower(name);
      if key in tags then Some(tags[key]) else None
    }

    /** A `?key` message that names a tag: its use count goes up by exactly one and
        its content is sent; any other key changes nothing. */
    method Use(key: string) returns (sent: Option<string>)
      modifies this
      ensures key in old(tags) ==> tags == Used(old(tags), key) && sent == Some(old(tags)[key].content)
      ensures key !in old(tags) ==> tags == old(tags) && sent == None
      ensures old(Valid()) ==> Valid()
    {
      if key !in tags {
        return None;
      }
      sent := Some(tags[key].content);
      tags := Used(tags, key);
    }
  }
}
