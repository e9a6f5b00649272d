/** What the rewritten cloud-init document holds, key by key, told by the request's own fields
    and the document that came in. */
module CloudInitLaws {
  import opened Text
  import opened CloudInit

  /** The text that handleCreateVM arrives at; RewriteCloudInit returns it. */
  function Rewritten(y: Yaml, content: string, r: Request): Result<string> {
    ChainText(y, content, Steps(r))
  }

  /** The document before and after. */
  ghost predicate Rewrites(y: Yaml, content: string, r: Request, before: Doc, after: Doc) {
    && Lawful(y) && DocOf(y, content) == Ok(before)
    && Rewritten(y, content, r).Ok? && DocOf(y, Rewritten(y, content, r).value) == Ok(after)
  }

  /* ---------- one step among others ---------- */

  predicate AwayFrom(steps: seq<Injector>, keys: set<string>) {
    forall i :: 0 <= i < |steps| ==> Footprint(steps[i]) !! keys
  }

  lemma LeavesAll(y: Yaml, content: string, steps: seq<Injector>, keys: set<string>)
    requires Lawful(y) && ChainText(y, content, steps).Ok? && DocOf(y, content).Ok? && AwayFrom(steps, keys)
    ensures DocOf(y, ChainText(y, content, steps).value).Ok?
    ensures
      var before, after := DocOf(y, content).value, DocOf(y, ChainText(y, content, steps).value).value;
      forall k :: k in keys ==> SameAt(before, after, k)
  {
    assert forall i :: 0 <= i < |steps| ==> "" !in Footprint(steps[i]);
    hide ChainText, DocOf, Footprint, SameAt;
    ChainLeaves(y, content, steps, "");
    forall k | k in keys
      ensures SameAt(DocOf(y, content).value, DocOf(y, ChainText(y, content, steps).value).value, k)
    {
      ChainLeaves(y, content, steps, k);
    }
  }

  lemma SameAcross(a: Doc, b: Doc, c: Doc, k: string)
    requires SameAt(a, b, k) && SameAt(b, c, k)
    ensures SameAt(a, c, k)
  {
  }

  /** At the keys it looks at or writes, the chain does what its one step there does. */
  lemma StepAmongOthers(y: Yaml, content: string, before: seq<Injector>, inj: Injector, after: seq<Injector>)
    requires Lawful(y) && ChainText(y, content, before + [inj] + after).Ok? && DocOf(y, content).Ok?
    requires AwayFrom(before, Footprint(inj)) && AwayFrom(after, Footprint(inj))
    ensures DocOf(y, ChainText(y, content, before + [inj] + after).value).Ok? && Apply(inj, DocOf(y, content).value).Ok?
    ensures
      var d := DocOf(y, ChainText(y, content, before + [inj] + after).value).value;
      forall k :: k in Footprint(inj) ==> SameAt(Apply(inj, DocOf(y, content).value).value, d, k)
  {
    hide ChainText, DocOf, InjectText, Footprint, Apply, SameAt, AwayFrom;
    ChainConcat(y, content, before + [inj], after);
    ChainConcat(y, content, before, [inj]);
    var t1 := ChainText(y, content, before).value;
    LeavesAll(y, content, before, Footprint(inj));
    ChainOne(y, t1, inj);
    var t2 := InjectText(y, t1, inj).value;
    TextFollowsDoc(y, t1, inj);
    var d0, d1 := DocOf(y, content).value, DocOf(y, t1).value;
    InsideDecides(inj, d0, d1);
    LeavesAll(y, t2, after, Footprint(inj));
    var d3 := DocOf(y, ChainText(y, t2, after).value).value;
    forall k | k in Footprint(inj)
      ensures SameAt(Apply(inj, d0).value, d3, k)
    {
      SameAcross(Apply(inj, d0).value, Apply(inj, d1).value, d3, k);
    }
  }

  function KeySteps(r: Request): seq<Injector> {
    KeyStep(r.pubKey) + KeyStep(r.sshPublicKey)
  }

  function LateSteps(r: Request): seq<Injector> {
    UserStep(r.username, r.password, r.sshPublicKey) + AgentStep(r.distro)
  }

  lemma Parts(r: Request)
    ensures Steps(r) == KeySteps(r) + HostStep(r.hostname) + LateSteps(r)
    ensures Steps(r) == KeySteps(r) + (HostStep(r.hostname) + LateSteps(r))
  {
    hide KeyStep, HostStep, UserStep, AgentStep;
  }

  /** What Rewrites says of the chain. */
  lemma Chained(y: Yaml, content: string, r: Request, before: Doc, after: Doc)
    requires Rewrites(y, content, r, before, after)
    ensures Lawful(y) && DocOf(y, content) == Ok(before) && ChainText(y, content, Steps(r)).Ok?
    ensures DocOf(y, ChainText(y, content, Steps(r)).value) == Ok(after)
  {
    hide ChainText, DocOf, Steps;
  }

  /* ---------- the host name ---------- */

  /** The host name keys are set to the trimmed name, or left alone if it is blank. */
  lemma FinishedHost(y: Yaml, content: string, r: Request, before: Doc, after: Doc)
    requires Rewrites(y, content, r, before, after)
    ensures
      var host := TrimSpace(r.hostname);
      if host == "" then forall k :: k in {"hostname", "fqdn", "preserve_hostname"} ==> SameAt(before, after, k)
      else Get(after, "hostname") == Str(host) && Get(after, "fqdn") == Str(host)
           && Get(after, "preserve_hostname") == Bool(false)
  {
    hide *;
    var host := TrimSpace(r.hostname);
    var inj := Hostname(host);
    Chained(y, content, r, before, after);
    Parts(r);
    AwayFromHost(r);
    HostFootprint(host);
    HostSteps(r.hostname);
    if host == "" {
      assert KeySteps(r) + [] + LateSteps(r) == KeySteps(r) + LateSteps(r);
      LeavesAll(y, content, Steps(r), Footprint(inj));
    } else {
      StepAmongOthers(y, content, KeySteps(r), inj, LateSteps(r));
      HostApplied(before, host);
      SameGet(Apply(inj, before).value, after, "hostname");
      SameGet(Apply(inj, before).value, after, "fqdn");
      SameGet(Apply(inj, before).value, after, "preserve_hostname");
    }
  }

  lemma HostFootprint(host: string)
    ensures Footprint(Hostname(host)) == {"hostname", "fqdn", "preserve_hostname"}
  {
  }

  lemma HostSteps(hostname: string)
    ensures HostStep(hostname) == if TrimSpace(hostname) == "" then [] else [Hostname(TrimSpace(hostname))]
  {
  }

  lemma SameGet(a: Doc, b: Doc, k: string)
    ensures SameAt(a, b, k) ==> Get(a, k) == Get(b, k)
  {
  }

  lemma AwayFromHost(r: Request)
    ensures
      var keys := {"hostname", "fqdn", "preserve_hostname"};
      && AwayFrom(KeySteps(r), keys) && AwayFrom(LateSteps(r), keys) && AwayFrom(KeySteps(r) + LateSteps(r), keys)
  {
    hide TrimSpace, GuestAgentCommand;
  }

  lemma HostApplied(d: Doc, host: string)
    ensures
      var r := Apply(Hostname(host), d);
      && r.Ok? && Get(r.value, "hostname") == Str(host) && Get(r.value, "fqdn") == Str(host)
      && Get(r.value, "preserve_hostname") == Bool(false)
  {
  }

  /* ---------- the user ---------- */

  /** A user who may do everything, log in with a password, and with the key if there is one. */
  predicate NewUser(n: Node, name: string, key: string) {
    && n.Map? && Get(n.fields, "name") == Str(name) && Get(n.fields, "lock_passwd") == Bool(false)
    && Get(n.fields, "groups") == Str("sudo") && Get(n.fields, "sudo") == Str("ALL=(ALL) NOPASSWD:ALL")
    && Get(n.fields, "shell") == Str("/bin/bash")
    && Get(n.fields, "ssh_authorized_keys") == if key == "" then Null else List([Str(key)])
  }

  lemma EntryIsNewUser(name: string, sshKey: string)
    ensures NewUser(UserEntry(name, sshKey), name, TrimSpace(sshKey))
  {
    hide TrimSpace;
  }

  /** The users there were; a document without any stands for the distribution's default user. */
  function UsersBefore(d: Doc): seq<Node> {
    match Get(d, "users")
    case Null => [Str("default")]
    case List(items) => items
    case _ => []
  }

  predicate Named(n: Node, name: string) {
    n.Map? && Get(n.fields, "name") == Str(name)
  }

  /** The users list, the chpasswd block and the ssh_pwauth flag after the user was added. */
  ghost predicate UserAdded(d: Doc, after: Doc, name: string, password: string, key: string) {
    var users, was := UsersBefore(d), FieldsOf(Get(d, "chpasswd"));
    && Get(after, "users").List?
    && (var items := Get(after, "users").items;
        if exists i :: 0 <= i < |users| && Named(users[i], name) then items == users
        else |items| == |users| + 1 && users <= items && NewUser(items[|users|], name, key))
    && Get(after, "ssh_pwauth") == Bool(true)
    && Get(after, "chpasswd").Map?
    && (var fields := Get(after, "chpasswd").fields;
        && Contains(TextOf(Get(fields, "list")), name + ":" + password)
        && Get(fields, "expire") == (if "expire" in was then was["expire"] else Bool(false))
        && forall k :: k != "list" && k != "expire" ==> Get(fields, k) == Get(was, k))
  }

  lemma HeldIsNamed(users: seq<Node>, name: string)
    ensures HoldsUser(users, name) <==> exists i :: 0 <= i < |users| && Named(users[i], name)
  {
    assert forall i :: 0 <= i < |users| ==> (IsUser(users[i], name) <==> Named(users[i], name));
    hide IsUser, Named;
  }

  lemma BlockApplied(block: Node, line: string)
    ensures
      var fields, was := Chpasswd(block, line).fields, FieldsOf(block);
      && Chpasswd(block, line).Map? && Contains(TextOf(Get(fields, "list")), line)
      && Get(fields, "expire") == (if "expire" in was then was["expire"] else Bool(false))
      && forall k :: k != "list" && k != "expire" ==> Get(fields, k) == Get(was, k)
  {
    ChpasswdTwice(block, line);
    hide Contains, PasswordList;
  }

  lemma UserParts(d: Doc, name: string, password: string, sshKey: string)
    requires Apply(User(name, password, sshKey), d).Ok?
    ensures
      var after := Apply(User(name, password, sshKey), d).value;
      && UsersOf(Get(d, "users")).Ok?
      && Get(after, "users") == List(UsersWith(UsersOf(Get(d, "users")).value, name, sshKey))
      && Get(after, "chpasswd") == Chpasswd(Get(d, "chpasswd"), name + ":" + password)
      && Get(after, "ssh_pwauth") == Bool(true)
  {
    hide Chpasswd, UsersWith;
  }

  lemma UserApplied(d: Doc, name: string, password: string, sshKey: string)
    requires Apply(User(name, password, sshKey), d).Ok?
    ensures UserAdded(d, Apply(User(name, password, sshKey), d).value, name, password, TrimSpace(sshKey))
  {
    var users := UsersOf(Get(d, "users")).value;
    assert users == UsersBefore(d);
    var after := Apply(User(name, password, sshKey), d).value;
    UserParts(d, name, password, sshKey);
    hide Chpasswd, UserEntry, TrimSpace, Contains, NewUser, Named, HoldsUser, Apply, UsersOf;
    HeldIsNamed(users, name);
    EntryIsNewUser(name, sshKey);
    BlockApplied(Get(d, "chpasswd"), name + ":" + password);
  }

  /** The user is added exactly if name and password are given. */
  lemma FinishedUser(y: Yaml, content: string, r: Request, before: Doc, after: Doc)
    requires Rewrites(y, content, r, before, after)
    ensures
      var name := TrimSpace(r.username);
      if name == "" || r.password == "" then forall k :: k in {"users", "chpasswd", "ssh_pwauth"} ==> SameAt(before, after, k)
      else UserAdded(before, after, name, r.password, TrimSpace(r.sshPublicKey))
  {
    hide *;
    var name := TrimSpace(r.username);
    var first, last := KeySteps(r) + HostStep(r.hostname), AgentStep(r.distro);
    var inj := User(name, r.password, r.sshPublicKey);
    UserFootprint(name, r.password, r.sshPublicKey);
    AwayFromUser(r);
    UserSplit(r);
    Chained(y, content, r, before, after);
    if name == "" || r.password == "" {
      LeavesAll(y, content, Steps(r), Footprint(inj));
    } else {
      StepAmongOthers(y, content, first, inj, last);
      UserApplied(before, name, r.password, r.sshPublicKey);
      var applied := Apply(inj, before).value;
      SameGet(applied, after, "users");
      SameGet(applied, after, "chpasswd");
      SameGet(applied, after, "ssh_pwauth");
      AddedThere(before, applied, after, name, r.password, TrimSpace(r.sshPublicKey));
    }
  }

  lemma UserFootprint(name: string, password: string, sshKey: string)
    ensures Footprint(User(name, password, sshKey)) == {"users", "chpasswd", "ssh_pwauth"}
  {
  }

  lemma UserSplit(r: Request)
    ensures
      var name := TrimSpace(r.username);
      Steps(r) == (KeySteps(r) + HostStep(r.hostname)) +
        (if name == "" || r.password == "" then [] else [User(name, r.password, r.sshPublicKey)]) + AgentStep(r.distro)
  {
    hide KeyStep, HostStep, AgentStep, TrimSpace;
  }

  lemma AddedThere(d: Doc, a: Doc, b: Doc, name: string, password: string, key: string)
    requires UserAdded(d, a, name, password, key)
    requires Get(a, "users") == Get(b, "users") && Get(a, "chpasswd") == Get(b, "chpasswd")
    requires Get(a, "ssh_pwauth") == Get(b, "ssh_pwauth")
    ensures UserAdded(d, b, name, password, key)
  {
    hide Contains, NewUser, Named;
  }

  lemma AwayFromUser(r: Request)
    ensures
      var keys := {"users", "chpasswd", "ssh_pwauth"};
      && AwayFrom(KeySteps(r) + HostStep(r.hostname), keys) && AwayFrom(AgentStep(r.distro), keys)
      && AwayFrom(KeySteps(r) + HostStep(r.hostname) + [] + AgentStep(r.distro), keys)
  {
    hide TrimSpace, GuestAgentCommand;
  }

  /* ---------- the guest agent ---------- */

  /** All texts in a node, at any depth of lists. */
  function Texts(n: Node): set<string> {
    match n
    case Str(text) => {text}
    case List(items) => set i, t | 0 <= i < |items| && t in Texts(items[i]) :: t
    case _ => {}
  }

  lemma TextsOfList(items: seq<Node>, t: string)
    ensures t in Texts(List(items)) <==> exists i :: 0 <= i < |items| && t in Texts(items[i])
  {
  }

  predicate HoldsAgent(texts: set<string>) {
    exists t :: t in texts && Contains(t, AGENT)
  }

  lemma ListHoldsAgent(items: seq<Node>)
    ensures HoldsAgent(Texts(List(items))) <==> exists i :: 0 <= i < |items| && HoldsAgent(Texts(items[i]))
  {
    hide Texts, Contains;
    if t :| t in Texts(List(items)) && Contains(t, AGENT) {
      TextsOfList(items, t);
    }
    if i :| 0 <= i < |items| && HoldsAgent(Texts(items[i])) {
      var t :| t in Texts(items[i]) && Contains(t, AGENT);
      TextsOfList(items, t);
    }
  }

  /** A command mentions the agent exactly if one of its texts holds the agent's name. */
  lemma {:induction false} MentionsIff(n: Node)
    ensures MentionsAgent(n) <==> HoldsAgent(Texts(n))
  {
    match n
    case Str(text) =>
      assert text in Texts(n);
    case List(items) =>
      forall i | 0 <= i < |items|
        ensures MentionsAgent(items[i]) <==> HoldsAgent(Texts(items[i]))
      {
        MentionsIff(items[i]);
      }
      ListHoldsAgent(items);
      hide HoldsAgent, Texts;
    case _ =>
  }

  /** The package manager's command for the distribution, if there is one. */
  function CommandFor(distro: string): string {
    match distro
    case "debian" => DEBIAN_COMMAND
    case "rhel" => RHEL_COMMAND
    case _ => ""
  }

  /** The command to install the agent is added at the end, run by a shell, unless some command
      mentions the agent already. */
  predicate AgentInstalled(before: Node, after: Node, command: string) {
    var items := if before.List? then before.items else [];
    if exists i :: 0 <= i < |items| && MentionsAgent(items[i]) then after == before
    else after == List(items + [List([Str("sh"), Str("-c"), Str(command)])])
  }

  lemma AgentApplied(d: Doc, command: string)
    requires Apply(GuestAgent(command), d).Ok?
    ensures AgentInstalled(Get(d, RUNCMD), Get(Apply(GuestAgent(command), d).value, RUNCMD), command)
  {
    var runcmd := Get(d, RUNCMD);
    var items := if runcmd.List? then runcmd.items else [];
    assert Items(runcmd) == Ok(items);
    if AnyMentionsAgent(items) {
      assert Apply(GuestAgent(command), d).value == d;
    } else {
      assert Apply(GuestAgent(command), d).value == d[RUNCMD := List(items + [AgentEntry(command)])];
    }
  }

  lemma FinishedAgent(y: Yaml, content: string, r: Request, before: Doc, after: Doc)
    requires Rewrites(y, content, r, before, after)
    ensures
      var command := CommandFor(r.distro);
      if command == "" then SameAt(before, after, RUNCMD)
      else AgentInstalled(Get(before, RUNCMD), Get(after, RUNCMD), command)
  {
    var command := GuestAgentCommand(r.distro);
    assert command == CommandFor(r.distro);
    var first := KeyStep(r.pubKey) + KeyStep(r.sshPublicKey) + HostStep(r.hostname)
      + UserStep(r.username, r.password, r.sshPublicKey);
    var inj := GuestAgent(command);
    assert Footprint(inj) == {RUNCMD};
    AwayFromAgent(r);
    if command == "" {
      assert Steps(r) == first;
      hide *;
      LeavesAll(y, content, Steps(r), Footprint(inj));
    } else {
      assert Steps(r) == first + [inj] + [];
      assert AwayFrom([], Footprint(inj));
      hide ChainText, DocOf, Steps, KeyStep, UserStep, HostStep, TrimSpace, GuestAgentCommand, CommandFor, Apply, Get;
      StepAmongOthers(y, content, first, inj, []);
      AgentApplied(before, command);
      SameGet(Apply(inj, before).value, after, RUNCMD);
    }
  }

  lemma AwayFromAgent(r: Request)
    ensures AwayFrom(KeyStep(r.pubKey) + KeyStep(r.sshPublicKey) + HostStep(r.hostname)
      + UserStep(r.username, r.password, r.sshPublicKey), {RUNCMD})
  {
    hide TrimSpace;
  }

  /* ---------- the SSH keys ---------- */

  /** Is this entry of the key list the key, up to surrounding blanks? */
  predicate IsKey(n: Node, key: string) {
    n.Str? && TrimSpace(n.text) == key
  }

  predicate Holds(items: seq<Node>, key: string) {
    exists i :: 0 <= i < |items| && IsKey(items[i], key)
  }

  /** The keys of the list with one more at its end unless it is blank or there already. */
  function WithKey(items: seq<Node>, key: string): seq<Node> {
    if key == "" || Holds(items, key) then items else items + [Str(key)]
  }

  function KeysOf(d: Doc): seq<Node> {
    match Get(d, "ssh_authorized_keys")
    case List(items) => items
    case _ => []
  }

  lemma KeyApplied(d: Doc, key: string)
    requires key != "" && Apply(SshKey(key), d).Ok?
    ensures KeysOf(Apply(SshKey(key), d).value) == WithKey(KeysOf(d), key)
    ensures KeysOf(d) == Items(Get(d, SSH_KEYS)).value
  {
    var keys := KeysOf(d);
    assert Items(Get(d, SSH_KEYS)) == Ok(keys);
    hide TrimSpace;
    assert forall i :: 0 <= i < |keys| ==> (IsKey(keys[i], key) <==> keys[i].Str? && TrimSpace(keys[i].text) == key);
    assert HoldsKey(keys, key) <==> Holds(keys, key);
  }

  lemma KeyStepApplied(y: Yaml, content: string, key: string)
    requires Lawful(y) && ChainText(y, content, KeyStep(key)).Ok? && DocOf(y, content).Ok?
    ensures DocOf(y, ChainText(y, content, KeyStep(key)).value).Ok?
    ensures KeysOf(DocOf(y, ChainText(y, content, KeyStep(key)).value).value)
         == WithKey(KeysOf(DocOf(y, content).value), TrimSpace(key))
  {
    var k := TrimSpace(key);
    if k == "" {
      assert KeyStep(key) == [];
      ChainNothing(y, content);
      hide *;
      BlankKey(KeysOf(DocOf(y, content).value));
    } else {
      assert KeyStep(key) == [SshKey(k)];
      ChainOne(y, content, SshKey(k));
      TextFollowsDoc(y, content, SshKey(k));
      hide *;
      KeyApplied(DocOf(y, content).value, k);
    }
  }

  lemma BlankKey(items: seq<Node>)
    ensures WithKey(items, "") == items
  {
  }

  /** The key list is the one there was with the two keys, of the settings and of the request,
      at its end, each unless it is blank or there already. */
  lemma FinishedKeys(y: Yaml, content: string, r: Request, before: Doc, after: Doc)
    requires Rewrites(y, content, r, before, after)
    ensures KeysOf(after) == WithKey(WithKey(KeysOf(before), TrimSpace(r.pubKey)), TrimSpace(r.sshPublicKey))
    ensures TrimSpace(r.pubKey) == "" && TrimSpace(r.sshPublicKey) == "" ==> SameAt(before, after, "ssh_authorized_keys")
  {
    hide *;
    var k1, k2, rest := KeyStep(r.pubKey), KeyStep(r.sshPublicKey), HostStep(r.hostname) + LateSteps(r);
    Chained(y, content, r, before, after);
    Parts(r);
    KeyParts(r);
    AwayFromKeys(r);
    ChainConcat(y, content, k1 + k2, rest);
    ChainConcat(y, content, k1, k2);
    KeyStepApplied(y, content, r.pubKey);
    var t1 := ChainText(y, content, k1).value;
    KeyStepApplied(y, t1, r.sshPublicKey);
    var t2 := ChainText(y, t1, k2).value;
    LeavesAll(y, t2, rest, {SSH_KEYS});
    SameKeys(DocOf(y, t2).value, after);
    if TrimSpace(r.pubKey) == "" && TrimSpace(r.sshPublicKey) == "" {
      NoKeys(r);
      assert [] + [] + rest == rest;
      LeavesAll(y, content, rest, {SSH_KEYS});
      SshKeysName();
    }
  }

  lemma SshKeysName()
    ensures SSH_KEYS == "ssh_authorized_keys"
  {
  }

  lemma SameKeys(a: Doc, b: Doc)
    requires SameAt(a, b, SSH_KEYS)
    ensures KeysOf(a) == KeysOf(b)
  {
  }

  lemma KeyParts(r: Request)
    ensures KeySteps(r) == KeyStep(r.pubKey) + KeyStep(r.sshPublicKey)
  {
  }

  lemma NoKeys(r: Request)
    requires TrimSpace(r.pubKey) == "" && TrimSpace(r.sshPublicKey) == ""
    ensures KeyStep(r.pubKey) == [] && KeyStep(r.sshPublicKey) == []
  {
  }

  lemma AwayFromKeys(r: Request)
    ensures AwayFrom(HostStep(r.hostname) + LateSteps(r), {SSH_KEYS})
  {
    hide TrimSpace, GuestAgentCommand;
  }

  /** So both keys are in it. */
  lemma KeysAreHeld(items: seq<Node>, key1: string, key2: string)
    requires TrimSpace(key1) == key1 && TrimSpace(key2) == key2
    ensures
      var r := WithKey(WithKey(items, key1), key2);
      && items <= r && (key1 != "" ==> Holds(r, key1)) && (key2 != "" ==> Holds(r, key2))
      && forall i :: |items| <= i < |r| ==> r[i] == Str(key1) || r[i] == Str(key2)
  {
    hide TrimSpace;
    var one := WithKey(items, key1);
    var r := WithKey(one, key2);
    if key1 != "" {
      if !Holds(items, key1) {
        assert IsKey(one[|items|], key1);
      }
      var i :| 0 <= i < |one| && IsKey(one[i], key1);
      assert r[i] == one[i];
    }
    if key2 != "" && !Holds(one, key2) {
      assert IsKey(r[|one|], key2);
    }
  }

  /* ---------- everything else ---------- */

  /** No other key of the document changes. */
  lemma FinishedOthers(y: Yaml, content: string, r: Request, before: Doc, after: Doc, k: string)
    requires Rewrites(y, content, r, before, after)
    requires k !in {"ssh_authorized_keys", "runcmd", "hostname", "fqdn", "preserve_hostname", "users", "chpasswd", "ssh_pwauth"}
    ensures SameAt(before, after, k)
  {
    hide *;
    Chained(y, content, r, before, after);
    forall inj: Injector
      ensures k !in Footprint(inj)
    {
      NotInFootprint(inj, k);
    }
    ChainLeaves(y, content, Steps(r), k);
  }

  lemma NotInFootprint(inj: Injector, k: string)
    requires k !in {"ssh_authorized_keys", "runcmd", "hostname", "fqdn", "preserve_hostname", "users", "chpasswd", "ssh_pwauth"}
    ensures k !in Footprint(inj)
  {
  }

  /* ---------- when it fails ---------- */

  predicate ListOrNothing(n: Node) {
    n == Null || n.List?
  }

  /** The list that a step appends to is one, or is not there. */
  predicate Fitting(inj: Injector, d: Doc) {
    match inj
    case SshKey(_) => ListOrNothing(Get(d, "ssh_authorized_keys"))
    case GuestAgent(_) => ListOrNothing(Get(d, "runcmd"))
    case User(_, _, _) => ListOrNothing(Get(d, "users"))
    case Hostname(_) => true
  }

  lemma AppliesIff(inj: Injector, d: Doc)
    ensures Apply(inj, d).Ok? <==> Fitting(inj, d)
  {
    hide Chpasswd, UsersWith, HoldsKey, AnyMentionsAgent;
  }

  lemma FittingKept(inj: Injector, other: Injector, d: Doc)
    requires Apply(other, d).Ok? && Compatible(other, inj)
    ensures Fitting(inj, d) <==> Fitting(inj, Apply(other, d).value)
  {
    hide Chpasswd, UsersWith, HoldsKey, AnyMentionsAgent;
  }

  lemma {:induction false} FittingAlong(y: Yaml, content: string, steps: seq<Injector>, inj: Injector)
    requires Lawful(y) && DocOf(y, content).Ok? && ChainText(y, content, steps).Ok?
    requires forall i :: 0 <= i < |steps| ==> Compatible(steps[i], inj)
    ensures DocOf(y, ChainText(y, content, steps).value).Ok?
    ensures Fitting(inj, DocOf(y, content).value) <==> Fitting(inj, DocOf(y, ChainText(y, content, steps).value).value)
  {
    hide Apply, Compatible, Fitting, InjectText, DocOf;
    if steps != [] {
      var front, last := steps[..|steps| - 1], steps[|steps| - 1];
      FittingAlong(y, content, front, inj);
      var text := ChainText(y, content, front).value;
      TextFollowsDoc(y, text, last);
      FittingKept(inj, last, DocOf(y, text).value);
    }
  }

  lemma {:induction false} ChainOkIff(y: Yaml, content: string, steps: seq<Injector>)
    requires Lawful(y) && DocOf(y, content).Ok? && AllCompatible(steps)
    ensures ChainText(y, content, steps).Ok? <==> AllFit(steps, DocOf(y, content).value)
  {
    hide Apply, Compatible, Fitting, InjectText, DocOf;
    if steps != [] {
      var n := |steps| - 1;
      var front, last := steps[..n], steps[n];
      assert forall i :: 0 <= i < n ==> front[i] == steps[i];
      ChainOkIff(y, content, front);
      if ChainText(y, content, front).Ok? {
        FittingAlong(y, content, front, last);
        var text := ChainText(y, content, front).value;
        TextFollowsDoc(y, text, last);
        AppliesIff(last, DocOf(y, text).value);
      }
    }
  }

  predicate AllFit(steps: seq<Injector>, d: Doc) {
    forall i :: 0 <= i < |steps| ==> Fitting(steps[i], d)
  }

  lemma AllFitOne(inj: Injector, d: Doc)
    ensures AllFit([inj], d) <==> Fitting(inj, d)
    ensures AllFit([], d)
  {
    assert [inj][0] == inj;
  }

  lemma AllFitConcat(a: seq<Injector>, b: seq<Injector>, d: Doc)
    ensures AllFit(a + b, d) <==> AllFit(a, d) && AllFit(b, d)
  {
    hide Fitting;
    assert forall i :: 0 <= i < |a| ==> (a + b)[i] == a[i];
    assert forall i :: 0 <= i < |b| ==> (a + b)[|a| + i] == b[i];
  }

  lemma FittingKey(key: string, d: Doc)
    ensures AllFit(KeyStep(key), d) <==> (TrimSpace(key) != "" ==> ListOrNothing(Get(d, "ssh_authorized_keys")))
  {
    AllFitOne(SshKey(TrimSpace(key)), d);
    hide TrimSpace, AllFit;
  }

  lemma FittingHost(host: string, d: Doc)
    ensures AllFit(HostStep(host), d)
  {
    AllFitOne(Hostname(TrimSpace(host)), d);
    hide TrimSpace, AllFit;
  }

  lemma FittingUser(name: string, password: string, sshKey: string, d: Doc)
    ensures AllFit(UserStep(name, password, sshKey), d)
      <==> (TrimSpace(name) != "" && password != "" ==> ListOrNothing(Get(d, "users")))
  {
    AllFitOne(User(TrimSpace(name), password, sshKey), d);
    hide TrimSpace, AllFit;
  }

  lemma FittingAgent(distro: string, d: Doc)
    ensures AllFit(AgentStep(distro), d) <==> (CommandFor(distro) != "" ==> ListOrNothing(Get(d, "runcmd")))
  {
    AllFitOne(GuestAgent(GuestAgentCommand(distro)), d);
    assert GuestAgentCommand(distro) == CommandFor(distro);
    hide GuestAgentCommand, CommandFor, AllFit;
  }

  lemma FittingSteps(r: Request, d: Doc)
    ensures AllFit(Steps(r), d) <==>
      && (TrimSpace(r.pubKey) != "" || TrimSpace(r.sshPublicKey) != "" ==> ListOrNothing(Get(d, "ssh_authorized_keys")))
      && (TrimSpace(r.username) != "" && r.password != "" ==> ListOrNothing(Get(d, "users")))
      && (CommandFor(r.distro) != "" ==> ListOrNothing(Get(d, "runcmd")))
  {
    hide AllFit, TrimSpace, CommandFor, KeyStep, HostStep, UserStep, AgentStep, ListOrNothing;
    var keys1, keys2, host := KeyStep(r.pubKey), KeyStep(r.sshPublicKey), HostStep(r.hostname);
    var user, agent := UserStep(r.username, r.password, r.sshPublicKey), AgentStep(r.distro);
    FittingKey(r.pubKey, d);
    FittingKey(r.sshPublicKey, d);
    FittingHost(r.hostname, d);
    FittingUser(r.username, r.password, r.sshPublicKey, d);
    FittingAgent(r.distro, d);
    AllFitConcat(keys1, keys2, d);
    AllFitConcat(keys1 + keys2, host, d);
    AllFitConcat(keys1 + keys2 + host, user, d);
    AllFitConcat(keys1 + keys2 + host + user, agent, d);
  }

  /** On a document that parses the rewriting fails exactly if a list it would append to is
      something else than a list. */
  lemma RewrittenIff(y: Yaml, content: string, r: Request, d: Doc)
    requires Lawful(y) && DocOf(y, content) == Ok(d)
    ensures Rewritten(y, content, r).Ok? <==>
      && (TrimSpace(r.pubKey) != "" || TrimSpace(r.sshPublicKey) != "" ==> ListOrNothing(Get(d, "ssh_authorized_keys")))
      && (TrimSpace(r.username) != "" && r.password != "" ==> ListOrNothing(Get(d, "users")))
      && (CommandFor(r.distro) != "" ==> ListOrNothing(Get(d, "runcmd")))
  {
    assert Rewritten(y, content, r) == ChainText(y, content, Steps(r));
    hide *;
    StepsFit(r);
    ChainOkIff(y, content, Steps(r));
    FittingSteps(r, d);
  }
}
