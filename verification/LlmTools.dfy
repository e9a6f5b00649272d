/** The tool tables of internal/api/llm_tools.go (names only). */
module LlmTools {

  /** Which tools exist, which are safe in read-only mode, which need confirmation. */
  datatype Tools = Tools(allowed: set<string>, readOnly: set<string>, destructive: set<string>)

  const CHAT_TOOLS: seq<string> := [
    "list_vms", "get_vm_info", "start_vm", "stop_vm", "suspend_vm", "delete_vm", "create_vm", "exec_command",
    "create_snapshot", "list_snapshots", "restore_snapshot", "delete_snapshot", "list_networks", "list_groups",
    "create_group", "rename_group", "delete_group", "assign_vm_to_group", "list_cloud_init_templates",
    "get_cloud_init_template", "create_cloud_init_template", "update_cloud_init_template",
    "delete_cloud_init_template", "list_playbooks", "get_playbook", "create_playbook", "update_playbook",
    "delete_playbook"]

  const READ_ONLY_TOOLS: set<string> := {
    "list_vms", "get_vm_info", "list_snapshots", "list_networks", "list_groups", "list_cloud_init_templates",
    "get_cloud_init_template", "list_playbooks", "get_playbook"}

  const DESTRUCTIVE_TOOLS: set<string> := {
    "delete_vm", "restore_snapshot", "delete_snapshot", "delete_cloud_init_template", "delete_playbook"}

  /** The table that init builds from the definitions. */
  method AllowedTools() returns (allowed: set<string>)
    ensures allowed == set t | t in CHAT_TOOLS
  {
    var names := CHAT_TOOLS;
    allowed := {};
    for i := 0 to |names|
      invariant allowed == set t | t in names[..i]
    {
      assert names[..i + 1] == names[..i] + [names[i]];
      allowed := allowed + {names[i]};
    }
    assert names[..|names|] == names;
  }

  /** The tools of a list that are in a table, in the order of the list. */
  function Listed(names: seq<string>, table: set<string>): seq<string> {
    if names == [] then []
    else
      var front, last := names[..|names| - 1], names[|names| - 1];
      if last in table then Listed(front, table) + [last] else Listed(front, table)
  }

  lemma {:induction false} ListedMembers(names: seq<string>, table: set<string>)
    ensures forall t :: t in Listed(names, table) <==> t in names && t in table
  {
    if names != [] {
      var front, last := names[..|names| - 1], names[|names| - 1];
      ListedMembers(front, table);
      assert forall t :: t in names <==> t in front || t == last;
    }
  }

  /** The tools offered to the model: in read-only mode, exactly the read-only ones. */
  method FilterToolsForMode(names: seq<string>, table: set<string>, readOnly: bool) returns (offered: seq<string>)
    ensures offered == if readOnly then Listed(names, table) else names
    ensures forall t :: t in offered <==> t in names && (readOnly ==> t in table)
  {
    if !readOnly {
      return names;
    }
    offered := [];
    for i := 0 to |names|
      invariant offered == Listed(names[..i], table)
    {
      assert names[..i + 1][..i] == names[..i];
      if names[i] in table {
        offered := offered + [names[i]];
      }
    }
    assert names[..|names|] == names;
    ListedMembers(names, table);
  }

  /** No tool is both safe in read-only mode and in need of confirmation. */
  lemma TablesDisjoint()
    ensures READ_ONLY_TOOLS !! DESTRUCTIVE_TOOLS
  {
  }
}
