/** Rewriting of cloud-init documents (pkg/kubevirt/cloudinit_files.go) and the order in which
    handleCreateVM applies it (internal/api/handlers_vms.go, lines 142-207). */
module CloudInit {
  import opened Text

  datatype Result<+T> = Ok(value: T) | Err(reason: string)

  /** A parsed YAML value; Other stands for numbers, dates and the like. */
  datatype Node =
    | Null
    | Str(text: string)
    | Bool(b: bool)
    | Other(raw: string)
    | List(items: seq<Node>)
    | Map(fields: map<string, Node>)

  type Doc = map<string, Node>

  /** The YAML library: parsing a document without content gives the empty map. */
  datatype Yaml = Yaml(parse: string -> Result<Doc>, marshal: Doc -> string)

  const HEADER := "#cloud-config\n"

  /** Parsing gives back what was marshalled. */
  ghost predicate Lawful(y: Yaml) {
    && y.parse(HEADER) == Ok(map[])
    && forall d: Doc :: y.parse(HEADER + y.marshal(d)) == Ok(d)
  }

  const SSH_KEYS := "ssh_authorized_keys"
  const RUNCMD := "runcmd"
  const AGENT := "qemu-guest-agent"

  /** The rewriting steps with their arguments trimmed and known not to be blank. */
  datatype Injector =
    | SshKey(key: string)
    | GuestAgent(command: string)
    | Hostname(host: string)
    | User(name: string, password: string, sshKey: string)

  function Get(d: Doc, k: string): Node {
    if k in d then d[k] else Null
  }

  /** The items of a list-valued key; a missing or null value is an empty list. */
  function Items(n: Node): Result<seq<Node>> {
    match n
    case Null => Ok([])
    case List(items) => Ok(items)
    case _ => Err("unexpected type")
  }

  /* ---------- what each step does to a document ---------- */

  /** Keep: the content is returned as it is. */
  datatype Edit = Keep | Write(doc: Doc)

  predicate HoldsKey(items: seq<Node>, key: string) {
    exists i :: 0 <= i < |items| && items[i].Str? && TrimSpace(items[i].text) == key
  }

  function SshKeyEdit(d: Doc, key: string): Result<Edit> {
    match Items(Get(d, SSH_KEYS))
    case Err(e) => Err(e)
    case Ok(keys) => if HoldsKey(keys, key) then Ok(Keep) else Ok(Write(d[SSH_KEYS := List(keys + [Str(key)])]))
  }

  /** containsQEMUGuestAgent */
  predicate MentionsAgent(entry: Node) {
    match entry
    case Str(text) => Contains(text, AGENT)
    case List(items) => exists i :: 0 <= i < |items| && MentionsAgent(items[i])
    case _ => false
  }

  predicate AnyMentionsAgent(items: seq<Node>) {
    exists i :: 0 <= i < |items| && MentionsAgent(items[i])
  }

  function AgentEntry(command: string): Node {
    List([Str("sh"), Str("-c"), Str(command)])
  }

  function AgentEdit(d: Doc, command: string): Result<Edit> {
    match Items(Get(d, RUNCMD))
    case Err(e) => Err(e)
    case Ok(items) =>
      if AnyMentionsAgent(items) then Ok(Keep) else Ok(Write(d[RUNCMD := List(items + [AgentEntry(command)])]))
  }

  function HostnameEdit(d: Doc, host: string): Result<Edit> {
    Ok(Write(d["hostname" := Str(host)]["fqdn" := Str(host)]["preserve_hostname" := Bool(false)]))
  }

  /** Is this entry of the users list a map with this name? */
  predicate IsUser(n: Node, name: string) {
    n.Map? && "name" in n.fields && n.fields["name"] == Str(name)
  }

  predicate HoldsUser(users: seq<Node>, name: string) {
    exists i :: 0 <= i < |users| && IsUser(users[i], name)
  }

  function UserEntry(name: string, sshKey: string): Node {
    var entry := map["name" := Str(name), "groups" := Str("sudo"), "sudo" := Str("ALL=(ALL) NOPASSWD:ALL"),
                     "shell" := Str("/bin/bash"), "lock_passwd" := Bool(false)];
    var key := TrimSpace(sshKey);
    Map(if key != "" then entry[SSH_KEYS := List([Str(key)])] else entry)
  }

  /** A missing users list keeps the distribution's default user. */
  function UsersOf(n: Node): Result<seq<Node>> {
    if n == Null then Ok([Str("default")]) else Items(n)
  }

  function UsersWith(users: seq<Node>, name: string, sshKey: string): seq<Node> {
    if HoldsUser(users, name) then users else users + [UserEntry(name, sshKey)]
  }

  function FieldsOf(n: Node): map<string, Node> {
    if n.Map? then n.fields else map[]
  }

  function TextOf(n: Node): string {
    if n.Str? then n.text else ""
  }

  function PasswordList(existing: string, line: string): string {
    if existing == "" then line + "\n" else TrimNewlines(existing) + "\n" + line + "\n"
  }

  function Chpasswd(n: Node, line: string): Node {
    var fields := FieldsOf(n);
    var existing := TextOf(Get(fields, "list"));
    var listed := if Contains(existing, line) then fields else fields["list" := Str(PasswordList(existing, line))];
    Map(if "expire" in listed then listed else listed["expire" := Bool(false)])
  }

  function UserEdit(d: Doc, name: string, password: string, sshKey: string): Result<Edit> {
    match UsersOf(Get(d, "users"))
    case Err(e) => Err(e)
    case Ok(users) =>
      Ok(Write(d["users" := List(UsersWith(users, name, sshKey))]
                ["chpasswd" := Chpasswd(Get(d, "chpasswd"), name + ":" + password)]
                ["ssh_pwauth" := Bool(true)]))
  }

  function EditOf(inj: Injector, d: Doc): Result<Edit> {
    match inj
    case SshKey(key) => SshKeyEdit(d, key)
    case GuestAgent(command) => AgentEdit(d, command)
    case Hostname(host) => HostnameEdit(d, host)
    case User(name, password, sshKey) => UserEdit(d, name, password, sshKey)
  }

  function Apply(inj: Injector, d: Doc): Result<Doc> {
    match EditOf(inj, d)
    case Err(e) => Err(e)
    case Ok(Keep) => Ok(d)
    case Ok(Write(d1)) => Ok(d1)
  }

  /** The top-level keys a step looks at or writes. */
  function Footprint(inj: Injector): set<string> {
    match inj
    case SshKey(_) => {SSH_KEYS}
    case GuestAgent(_) => {RUNCMD}
    case Hostname(_) => {"hostname", "fqdn", "preserve_hostname"}
    case User(_, _, _) => {"users", "chpasswd", "ssh_pwauth"}
  }

  /* ---------- locality ---------- */

  predicate SameAt(a: Doc, b: Doc, k: string) {
    (k in a <==> k in b) && (k in a && k in b ==> a[k] == b[k])
  }

  /** A step changes nothing outside its footprint. */
  lemma OutsideUntouched(inj: Injector, d: Doc, k: string)
    requires k !in Footprint(inj) && Apply(inj, d).Ok?
    ensures SameAt(d, Apply(inj, d).value, k)
  {
  }

  /** Documents that agree on the footprint fare the same there: both fail, or both succeed
      and agree on the footprint again. */
  lemma InsideDecides(inj: Injector, a: Doc, b: Doc)
    requires forall k :: k in Footprint(inj) ==> SameAt(a, b, k)
    ensures Apply(inj, a).Ok? <==> Apply(inj, b).Ok?
    ensures Apply(inj, a).Ok? ==> forall k :: k in Footprint(inj) ==> SameAt(Apply(inj, a).value, Apply(inj, b).value, k)
  {
    match inj
    case SshKey(_) =>
      assert SameAt(a, b, SSH_KEYS);
    case GuestAgent(_) =>
      assert SameAt(a, b, RUNCMD);
    case Hostname(_) =>
    case User(_, _, _) =>
      assert SameAt(a, b, "users") && SameAt(a, b, "chpasswd") && SameAt(a, b, "ssh_pwauth");
  }

  function Both(first: Injector, second: Injector, d: Doc): Result<Doc> {
    match Apply(first, d)
    case Err(e) => Err(e)
    case Ok(d1) => Apply(second, d1)
  }

  lemma BothInside(first: Injector, second: Injector, d: Doc)
    requires Footprint(first) !! Footprint(second)
    ensures Both(first, second, d).Ok? <==> Apply(first, d).Ok? && Apply(second, d).Ok?
    ensures Both(first, second, d).Ok? ==>
      && (forall k :: k in Footprint(first) ==> SameAt(Both(first, second, d).value, Apply(first, d).value, k))
      && (forall k :: k in Footprint(second) ==> SameAt(Both(first, second, d).value, Apply(second, d).value, k))
      && (forall k :: k !in Footprint(first) + Footprint(second) ==> SameAt(Both(first, second, d).value, d, k))
  {
    if Apply(first, d).Ok? {
      var d1 := Apply(first, d).value;
      forall k | k !in Footprint(first)
        ensures SameAt(d, d1, k)
      {
        OutsideUntouched(first, d, k);
      }
      InsideDecides(second, d, d1);
      if Apply(second, d1).Ok? {
        forall k | k !in Footprint(second)
          ensures SameAt(d1, Apply(second, d1).value, k)
        {
          OutsideUntouched(second, d1, k);
        }
      }
    }
  }

  lemma SameEverywhere(a: Doc, b: Doc)
    requires forall k :: SameAt(a, b, k)
    ensures a == b
  {
    forall k
      ensures k in a <==> k in b
    {
      assert SameAt(a, b, k);
    }
    forall k | k in a
      ensures a[k] == b[k]
    {
      assert SameAt(a, b, k);
    }
  }

  /** Steps with disjoint footprints commute: both orders fail, or both give the same document. */
  lemma Commute(a: Injector, b: Injector, d: Doc)
    requires Footprint(a) !! Footprint(b)
    ensures Both(a, b, d).Ok? <==> Both(b, a, d).Ok?
    ensures Both(a, b, d).Ok? ==> Both(a, b, d) == Both(b, a, d)
  {
    BothInside(a, b, d);
    BothInside(b, a, d);
    if Both(a, b, d).Ok? {
      var ab, ba := Both(a, b, d).value, Both(b, a, d).value;
      forall k
        ensures SameAt(ab, ba, k)
      {
        if k in Footprint(a) {
          assert SameAt(ab, Apply(a, d).value, k) && SameAt(ba, Apply(a, d).value, k);
        } else if k in Footprint(b) {
          assert SameAt(ab, Apply(b, d).value, k) && SameAt(ba, Apply(b, d).value, k);
        } else {
          assert SameAt(ab, d, k) && SameAt(ba, d, k);
        }
      }
      SameEverywhere(ab, ba);
    }
  }

  /* ---------- doing it twice ---------- */

  /** Arguments as the callers prepare them. */
  predicate Proper(inj: Injector) {
    match inj
    case SshKey(key) => key != "" && TrimSpace(key) == key
    case GuestAgent(command) => Contains(command, AGENT)
    case Hostname(host) => host != ""
    case User(name, password, _) => name != "" && password != ""
  }

  lemma PasswordListed(existing: string, line: string)
    ensures Contains(PasswordList(existing, line), line)
  {
    if existing == "" {
      ContainsAt("", line, "\n");
      assert "" + line + "\n" == line + "\n";
    } else {
      ContainsAt(TrimNewlines(existing) + "\n", line, "\n");
    }
  }

  lemma ChpasswdTwice(n: Node, line: string)
    ensures Chpasswd(Chpasswd(n, line), line) == Chpasswd(n, line)
    ensures Contains(TextOf(Get(FieldsOf(Chpasswd(n, line)), "list")), line)
  {
    PasswordListed(TextOf(Get(FieldsOf(n), "list")), line);
  }

  lemma UsersTwice(users: seq<Node>, name: string, sshKey: string)
    ensures UsersWith(UsersWith(users, name, sshKey), name, sshKey) == UsersWith(users, name, sshKey)
    ensures HoldsUser(UsersWith(users, name, sshKey), name)
  {
    if !HoldsUser(users, name) {
      var more := users + [UserEntry(name, sshKey)];
      assert IsUser(more[|users|], name);
    }
  }

  lemma KeyAdded(keys: seq<Node>, key: string)
    requires TrimSpace(key) == key
    ensures HoldsKey(keys + [Str(key)], key)
  {
    assert (keys + [Str(key)])[|keys|] == Str(key);
  }

  lemma AgentAdded(items: seq<Node>, command: string)
    requires Contains(command, AGENT)
    ensures AnyMentionsAgent(items + [AgentEntry(command)])
  {
    var more := items + [AgentEntry(command)];
    assert MentionsAgent(AgentEntry(command).items[2]);
    assert MentionsAgent(more[|items|]);
  }

  /** After a step has written, the same step finds nothing left to change. */
  lemma Again(inj: Injector, d: Doc)
    requires Proper(inj) && EditOf(inj, d).Ok? && EditOf(inj, d).value.Write?
    ensures
      var d1 := EditOf(inj, d).value.doc;
      EditOf(inj, d1) == Ok(Keep) || EditOf(inj, d1) == Ok(Write(d1))
  {
    match inj
    case SshKey(key) =>
      KeyAdded(Items(Get(d, SSH_KEYS)).value, key);
    case GuestAgent(command) =>
      AgentAdded(Items(Get(d, RUNCMD)).value, command);
    case Hostname(host) =>
      var d1 := EditOf(inj, d).value.doc;
      assert d1["hostname" := Str(host)]["fqdn" := Str(host)]["preserve_hostname" := Bool(false)] == d1;
    case User(name, password, sshKey) =>
      UserAgain(d, name, password, sshKey);
  }

  lemma UserAgain(d: Doc, name: string, password: string, sshKey: string)
    requires UserEdit(d, name, password, sshKey).Ok?
    ensures
      var d1 := UserEdit(d, name, password, sshKey).value.doc;
      UserEdit(d1, name, password, sshKey) == Ok(Write(d1))
  {
    hide Chpasswd, UsersWith;
    var d1 := UserEdit(d, name, password, sshKey).value.doc;
    UsersTwice(UsersOf(Get(d, "users")).value, name, sshKey);
    ChpasswdTwice(Get(d, "chpasswd"), name + ":" + password);
    assert d1["users" := d1["users"]]["chpasswd" := d1["chpasswd"]]["ssh_pwauth" := Bool(true)] == d1;
  }

  /* ---------- on text ---------- */

  function NonBlank(content: string): string {
    if TrimSpace(content) == "" then HEADER else content
  }

  function DocOf(y: Yaml, content: string): Result<Doc> {
    y.parse(NonBlank(content))
  }

  function InjectText(y: Yaml, content: string, inj: Injector): Result<string> {
    match DocOf(y, content)
    case Err(e) => Err(e)
    case Ok(d) =>
      match EditOf(inj, d)
      case Err(e) => Err(e)
      case Ok(Keep) => Ok(NonBlank(content))
      case Ok(Write(d1)) => Ok(HEADER + y.marshal(d1))
  }

  lemma {:induction false} TrimRightKeepsHead(s: string)
    requires s != "" && !IsSpace(s[0])
    ensures TrimRight(s) != ""
  {
    if IsSpace(s[|s| - 1]) {
      TrimRightKeepsHead(s[..|s| - 1]);
    }
  }

  lemma HeaderNotBlank(rest: string)
    ensures NonBlank(HEADER + rest) == HEADER + rest
  {
    var s := HEADER + rest;
    assert s[0] == '#';
    TrimRightKeepsHead(s);
  }

  lemma NonBlankTwice(content: string)
    ensures NonBlank(NonBlank(content)) == NonBlank(content)
  {
  }

  /** On text a step does what it does on the parsed document. */
  lemma TextFollowsDoc(y: Yaml, content: string, inj: Injector)
    requires Lawful(y)
    ensures InjectText(y, content, inj).Ok? <==> DocOf(y, content).Ok? && Apply(inj, DocOf(y, content).value).Ok?
    ensures InjectText(y, content, inj).Ok? ==>
      DocOf(y, InjectText(y, content, inj).value) == Apply(inj, DocOf(y, content).value)
  {
    NonBlankTwice(content);
    if DocOf(y, content).Ok? {
      var edit := EditOf(inj, DocOf(y, content).value);
      if edit.Ok? && edit.value.Write? {
        HeaderNotBlank(y.marshal(edit.value.doc));
      }
    }
  }

  /** Every step is idempotent, to the letter. */
  lemma InjectTwice(y: Yaml, content: string, inj: Injector)
    requires Lawful(y) && Proper(inj) && InjectText(y, content, inj).Ok?
    ensures InjectText(y, InjectText(y, content, inj).value, inj) == InjectText(y, content, inj)
  {
    NonBlankTwice(content);
    var d := DocOf(y, content).value;
    if EditOf(inj, d).value.Write? {
      HeaderNotBlank(y.marshal(EditOf(inj, d).value.doc));
      Again(inj, d);
    }
  }

  /* ---------- what a step assures, and what later steps leave of it ---------- */

  predicate Assured(inj: Injector, d: Doc) {
    match inj
    case SshKey(key) =>
      var keys := Items(Get(d, SSH_KEYS));
      keys.Ok? && HoldsKey(keys.value, key)
    case GuestAgent(_) =>
      var items := Items(Get(d, RUNCMD));
      items.Ok? && AnyMentionsAgent(items.value)
    case Hostname(host) =>
      Get(d, "hostname") == Str(host) && Get(d, "fqdn") == Str(host) && Get(d, "preserve_hostname") == Bool(false)
    case User(name, password, _) =>
      var users := Items(Get(d, "users"));
      && users.Ok? && HoldsUser(users.value, name) && Get(d, "ssh_pwauth") == Bool(true)
      && Contains(TextOf(Get(FieldsOf(Get(d, "chpasswd")), "list")), name + ":" + password)
  }

  lemma Establishes(inj: Injector, d: Doc)
    requires Proper(inj) && Apply(inj, d).Ok?
    ensures Assured(inj, Apply(inj, d).value)
  {
    match inj
    case SshKey(key) =>
      KeyAdded(Items(Get(d, SSH_KEYS)).value, key);
    case GuestAgent(command) =>
      AgentAdded(Items(Get(d, RUNCMD)).value, command);
    case Hostname(_) =>
    case User(name, password, sshKey) =>
      UserEstablished(d, name, password, sshKey);
  }

  lemma UserEstablished(d: Doc, name: string, password: string, sshKey: string)
    requires UserEdit(d, name, password, sshKey).Ok?
    ensures Assured(User(name, password, sshKey), UserEdit(d, name, password, sshKey).value.doc)
  {
    hide Chpasswd, UsersWith, HoldsUser;
    UsersTwice(UsersOf(Get(d, "users")).value, name, sshKey);
    ChpasswdTwice(Get(d, "chpasswd"), name + ":" + password);
  }

  /** Does the password line stand on a line of its own in the chpasswd list? */
  predicate Alone(chpasswd: Node, line: string) {
    line in Split(TextOf(Get(FieldsOf(chpasswd), "list")), '\n')
  }

  lemma AddedAlone(existing: string, line: string)
    requires '\n' !in line
    ensures line in Split(PasswordList(existing, line), '\n')
  {
    SplitPiece(line, "", '\n');
    assert line + "\n" + "" == line + "\n";
    if existing != "" {
      SplitConcat(TrimNewlines(existing), line + "\n", '\n');
      assert TrimNewlines(existing) + "\n" + (line + "\n") == PasswordList(existing, line);
      assert [line] + Split("", '\n') == Split(line + "\n", '\n');
    }
  }

  /** The code looks for the password line with a substring test.  So the line ends up on a
      line of its own exactly when it holds no newline and either stood there before or was
      not contained in the list at all. */
  lemma PasswordLineAloneIff(block: Node, line: string)
    ensures
      var existing := TextOf(Get(FieldsOf(block), "list"));
      Alone(Chpasswd(block, line), line) <==> '\n' !in line && (Alone(block, line) || !Contains(existing, line))
  {
    var existing := TextOf(Get(FieldsOf(block), "list"));
    var after := TextOf(Get(FieldsOf(Chpasswd(block, line)), "list"));
    SplitClean(after, '\n');
    assert after == if Contains(existing, line) then existing else PasswordList(existing, line);
    if '\n' !in line {
      AddedAlone(existing, line);
    }
    hide Split, Contains, PasswordList;
  }

  /** A longer password of the same user hides the line: the list stays as it is. */
  lemma PasswordLineHidden(line: string, c: char)
    requires line != "" && '\n' !in line && c != '\n'
    ensures
      var block := Map(map["list" := Str(line + [c] + "\n"), "expire" := Bool(false)]);
      Chpasswd(block, line) == block && !Alone(block, line)
  {
    ContainsAt("", line, [c] + "\n");
    var existing := line + [c] + "\n";
    assert "" + line + ([c] + "\n") == existing;
    SplitPiece(line + [c], "", '\n');
    assert line + [c] + "\n" + "" == existing;
    assert Split(existing, '\n') == [line + [c], ""];
  }

  /** Is `p` an entry of the chpasswd list?  cloud-init takes it as a text with one entry per
      line or as a list of texts. */
  predicate Entry(chpasswd: Node, p: string) {
    match Get(FieldsOf(chpasswd), "list")
    case Str(text) => p != "" && p in Split(text, '\n')
    case List(items) => Str(p) in items
    case _ => false
  }

  /** A password line added to a text keeps the lines that are there, and adds its own. */
  lemma PasswordListKeeps(existing: string, line: string, p: string)
    requires p != ""
    ensures p in Split(PasswordList(existing, line), '\n') <==> p in Split(existing, '\n') || p in Split(line, '\n')
  {
    SplitConcat(line, "", '\n');
    assert line + "\n" + "" == line + "\n";
    if existing != "" {
      var kept := TrimNewlines(existing);
      SplitConcat(kept, line + "\n", '\n');
      assert kept + "\n" + (line + "\n") == PasswordList(existing, line);
      PiecesTrimmed(existing, p);
    }
  }

  lemma {:induction false} PiecesTrimmed(s: string, p: string)
    requires p != ""
    ensures p in Split(TrimNewlines(s), '\n') <==> p in Split(s, '\n')
  {
    if s != "" && s[|s| - 1] == '\n' {
      var front := s[..|s| - 1];
      assert s == front + ['\n'] + "";
      SplitConcat(front, "", '\n');
      PiecesTrimmed(front, p);
    }
  }

  /** A step adds its password line to a text, but writes it over a list: what was listed there
      is kept only if the line happens to hold it. */
  ghost predicate ListedInLine(chpasswd: Node, line: string) {
    var list := Get(FieldsOf(chpasswd), "list");
    list.List? ==> forall p :: Str(p) in list.items ==> p != "" && p in Split(line, '\n')
  }

  lemma EntriesAfter(block: Node, line: string, p: string)
    requires line != ""
    ensures
      Entry(Chpasswd(block, line), p) <==>
        if Get(FieldsOf(block), "list").Str? && Contains(TextOf(Get(FieldsOf(block), "list")), line) then Entry(block, p)
        else p != "" && (p in Split(line, '\n') || (Get(FieldsOf(block), "list").Str? && Entry(block, p)))
  {
    var existing := TextOf(Get(FieldsOf(block), "list"));
    assert Get(FieldsOf(Chpasswd(block, line)), "list")
        == if Contains(existing, line) then Get(FieldsOf(block), "list") else Str(PasswordList(existing, line));
    if p != "" {
      PasswordListKeeps(existing, line, p);
    }
    hide Split, PasswordList, Chpasswd;
  }

  /** The injector promises to append, yet the password entries that were there all stay only
      if they were not written as a list (or are repeated by the line itself). */
  lemma PasswordEntriesStayIff(block: Node, line: string)
    requires line != ""
    ensures (forall p :: Entry(block, p) ==> Entry(Chpasswd(block, line), p)) <==> ListedInLine(block, line)
  {
    forall p
      ensures Entry(Chpasswd(block, line), p) <==>
        if Get(FieldsOf(block), "list").Str? && Contains(TextOf(Get(FieldsOf(block), "list")), line) then Entry(block, p)
        else p != "" && (p in Split(line, '\n') || (Get(FieldsOf(block), "list").Str? && Entry(block, p)))
    {
      EntriesAfter(block, line, p);
    }
    hide Chpasswd, Split, Contains;
    var list := Get(FieldsOf(block), "list");
    if list.List? {
      assert forall p :: Str(p) in list.items <==> Entry(block, p);
    }
  }

  /** For a password line without a newline: everything listed must be that very line. */
  lemma ListedInOneLine(block: Node, line: string)
    requires line != "" && '\n' !in line
    ensures
      var list := Get(FieldsOf(block), "list");
      ListedInLine(block, line) <==> (list.List? ==> forall p :: Str(p) in list.items ==> p == line)
  {
    SplitWhole(line, '\n');
  }

  /** An operator's entry `root:toor` in a list of its own, say, is lost when another user is
      added: the list becomes the text of the one new line. */
  lemma PasswordListLost(d: Doc, entry: string, name: string, password: string, sshKey: string)
    requires Get(d, "users") == Null && Get(d, "chpasswd") == Map(map["list" := List([Str(entry)])])
    requires '\n' !in name + ":" + password && entry != name + ":" + password
    ensures
      var r := Apply(User(name, password, sshKey), d);
      && r.Ok?
      && Get(r.value, "chpasswd") == Map(map["list" := Str(name + ":" + password + "\n"), "expire" := Bool(false)])
      && Entry(Get(d, "chpasswd"), entry) && !Entry(Get(r.value, "chpasswd"), entry)
  {
    ListLost(entry, name + ":" + password);
    UserSetsChpasswd(d, name, password, sshKey);
    hide Chpasswd, Apply, Entry;
  }

  lemma UserSetsChpasswd(d: Doc, name: string, password: string, sshKey: string)
    ensures
      var r := Apply(User(name, password, sshKey), d);
      && (r.Ok? <==> UsersOf(Get(d, "users")).Ok?)
      && (r.Ok? ==> Get(r.value, "chpasswd") == Chpasswd(Get(d, "chpasswd"), name + ":" + password))
  {
    hide Chpasswd, UsersOf, UsersWith;
  }

  lemma ListLost(entry: string, line: string)
    requires line != "" && '\n' !in line && entry != line
    ensures
      var block := Map(map["list" := List([Str(entry)])]);
      && Chpasswd(block, line) == Map(map["list" := Str(line + "\n"), "expire" := Bool(false)])
      && Entry(block, entry) && !Entry(Chpasswd(block, line), entry)
  {
    var block := Map(map["list" := List([Str(entry)])]);
    EntriesAfter(block, line, entry);
    SplitWhole(line, '\n');
    assert !Contains("", line) && PasswordList("", line) == line + "\n";
    assert Str(entry) in [Str(entry)];
    hide Split, Contains, PasswordList;
  }

  /** The keys whose former value a step does not look at. */
  function Overwritten(inj: Injector): set<string> {
    match inj
    case Hostname(_) => {"hostname", "fqdn", "preserve_hostname"}
    case User(_, _, _) => {"chpasswd", "ssh_pwauth"}
    case _ => {}
  }

  /** Earlier entries of a top-level list stay, in place and in order, exactly when the step
      does not overwrite the key. */
  lemma ListsGrow(inj: Injector, d: Doc, k: string)
    requires Apply(inj, d).Ok? && Items(Get(d, k)).Ok?
    ensures
      var after := Items(Get(Apply(inj, d).value, k));
      (after.Ok? && Items(Get(d, k)).value <= after.value) <==> k !in Overwritten(inj)
  {
  }

  predicate Compatible(a: Injector, b: Injector) {
    Footprint(a) !! Footprint(b) || (a.SshKey? && b.SshKey?) || (a.GuestAgent? && b.GuestAgent?)
  }

  lemma GrownKeeps(a: seq<Node>, b: seq<Node>, key: string)
    requires a <= b
    ensures HoldsKey(a, key) ==> HoldsKey(b, key)
    ensures AnyMentionsAgent(a) ==> AnyMentionsAgent(b)
  {
  }

  lemma Preserves(inj: Injector, other: Injector, d: Doc)
    requires Assured(inj, d) && Apply(other, d).Ok? && Compatible(inj, other)
    ensures Assured(inj, Apply(other, d).value)
  {
    var d1 := Apply(other, d).value;
    if Footprint(inj) !! Footprint(other) {
      forall k | k in Footprint(inj)
        ensures Get(d1, k) == Get(d, k)
      {
        OutsideUntouched(other, d, k);
      }
    } else if inj.SshKey? {
      ListsGrow(other, d, SSH_KEYS);
      GrownKeeps(Items(Get(d, SSH_KEYS)).value, Items(Get(d1, SSH_KEYS)).value, inj.key);
    } else {
      ListsGrow(other, d, RUNCMD);
      GrownKeeps(Items(Get(d, RUNCMD)).value, Items(Get(d1, RUNCMD)).value, "");
    }
  }

  /* ---------- the chain of handleCreateVM ---------- */

  function ChainText(y: Yaml, content: string, steps: seq<Injector>): Result<string> {
    if steps == [] then Ok(content)
    else
      match ChainText(y, content, steps[..|steps| - 1])
      case Err(e) => Err(e)
      case Ok(text) => InjectText(y, text, steps[|steps| - 1])
  }

  predicate AllCompatible(steps: seq<Injector>) {
    forall i, j :: 0 <= i < j < |steps| ==> Compatible(steps[i], steps[j])
  }

  /** After a chain of compatible steps, what each of them assures still holds. */
  lemma {:induction false} ChainAssures(y: Yaml, content: string, steps: seq<Injector>)
    requires Lawful(y) && AllCompatible(steps) && AllProper(steps)
    requires steps != [] && ChainText(y, content, steps).Ok?
    ensures
      var d := DocOf(y, ChainText(y, content, steps).value);
      d.Ok? && forall i :: 0 <= i < |steps| ==> Assured(steps[i], d.value)
    decreases |steps|
  {
    hide Apply, Assured, Proper, Compatible, InjectText, DocOf;
    var front, last := steps[..|steps| - 1], steps[|steps| - 1];
    var text := ChainText(y, content, front).value;
    TextFollowsDoc(y, text, last);
    var d := DocOf(y, text).value;
    Establishes(last, d);
    if front != [] {
      ChainAssures(y, content, front);
      forall i | 0 <= i < |front|
        ensures Assured(steps[i], Apply(last, d).value)
      {
        assert front[i] == steps[i];
        Preserves(front[i], last, d);
      }
    }
  }

  /** What the request and the settings ask for; distro is ImageDistro's answer. */
  datatype Request = Request(pubKey: string, sshPublicKey: string, hostname: string,
                             username: string, password: string, distro: string)

  const DEBIAN_COMMAND :=
    "DEBIAN_FRONTEND=noninteractive apt-get update -y && DEBIAN_FRONTEND=noninteractive apt-get install -y "
    + AGENT + " && systemctl enable --now qemu-guest-agent"
  const RHEL_COMMAND := "dnf install -y " + AGENT + " && systemctl enable --now qemu-guest-agent"

  function GuestAgentCommand(distro: string): string {
    if distro == "debian" then DEBIAN_COMMAND else if distro == "rhel" then RHEL_COMMAND else ""
  }

  function KeyStep(key: string): seq<Injector> {
    if TrimSpace(key) == "" then [] else [SshKey(TrimSpace(key))]
  }

  function HostStep(host: string): seq<Injector> {
    if TrimSpace(host) == "" then [] else [Hostname(TrimSpace(host))]
  }

  function UserStep(name: string, password: string, sshKey: string): seq<Injector> {
    if TrimSpace(name) == "" || password == "" then [] else [User(TrimSpace(name), password, sshKey)]
  }

  function AgentStep(distro: string): seq<Injector> {
    if GuestAgentCommand(distro) == "" then [] else [GuestAgent(GuestAgentCommand(distro))]
  }

  function Steps(r: Request): seq<Injector> {
    KeyStep(r.pubKey) + KeyStep(r.sshPublicKey) + HostStep(r.hostname)
    + UserStep(r.username, r.password, r.sshPublicKey) + AgentStep(r.distro)
  }

  lemma CommandsMentionAgent(distro: string)
    ensures GuestAgentCommand(distro) != "" ==> Contains(GuestAgentCommand(distro), AGENT)
  {
    var before := "DEBIAN_FRONTEND=noninteractive apt-get update -y && DEBIAN_FRONTEND=noninteractive apt-get install -y ";
    var after := " && systemctl enable --now qemu-guest-agent";
    ContainsAt(before, AGENT, after);
    ContainsAt("dnf install -y ", AGENT, after);
  }

  predicate AllProper(steps: seq<Injector>) {
    forall i :: 0 <= i < |steps| ==> Proper(steps[i])
  }

  /** The order in which the kinds of steps are taken. */
  function Rank(inj: Injector): nat {
    match inj
    case SshKey(_) => 0
    case Hostname(_) => 1
    case User(_, _, _) => 2
    case GuestAgent(_) => 3
  }

  /** Proper, compatible steps, none of them later than rank r. */
  predicate Fit(steps: seq<Injector>, r: nat) {
    AllProper(steps) && AllCompatible(steps) && forall i :: 0 <= i < |steps| ==> Rank(steps[i]) <= r
  }

  /** At most one step, a proper one of rank r. */
  predicate OneStep(steps: seq<Injector>, r: nat) {
    |steps| <= 1 && AllProper(steps) && forall i :: 0 <= i < |steps| ==> Rank(steps[i]) == r
  }

  lemma RanksCompatible(a: Injector, b: Injector)
    requires Rank(a) < Rank(b) || Rank(a) == Rank(b) == 0
    ensures Compatible(a, b)
  {
  }

  lemma AddStep(steps: seq<Injector>, q: nat, step: seq<Injector>, r: nat)
    requires Fit(steps, q) && OneStep(step, r) && (q < r || q == r == 0)
    ensures Fit(steps + step, r)
  {
    if |step| == 1 {
      forall i | 0 <= i < |steps|
        ensures Compatible(steps[i], step[0])
      {
        RanksCompatible(steps[i], step[0]);
      }
    }
    hide Compatible, Proper, Rank;
  }

  lemma KeyStepFits(key: string)
    ensures OneStep(KeyStep(key), 0)
  {
    TrimSpaceTrims(key);
    hide TrimSpace;
  }

  lemma HostStepFits(host: string)
    ensures OneStep(HostStep(host), 1)
  {
    hide TrimSpace;
  }

  lemma UserStepFits(name: string, password: string, sshKey: string)
    ensures OneStep(UserStep(name, password, sshKey), 2)
  {
    hide TrimSpace;
  }

  lemma AgentStepFits(distro: string)
    ensures OneStep(AgentStep(distro), 3)
  {
    CommandsMentionAgent(distro);
    hide GuestAgentCommand, Contains;
  }

  lemma StepsFit(r: Request)
    ensures AllCompatible(Steps(r)) && AllProper(Steps(r))
  {
    var keys1, keys2, host := KeyStep(r.pubKey), KeyStep(r.sshPublicKey), HostStep(r.hostname);
    var user, agent := UserStep(r.username, r.password, r.sshPublicKey), AgentStep(r.distro);
    KeyStepFits(r.pubKey);
    KeyStepFits(r.sshPublicKey);
    HostStepFits(r.hostname);
    UserStepFits(r.username, r.password, r.sshPublicKey);
    AgentStepFits(r.distro);
    assert Fit([], 0);
    assert [] + keys1 == keys1;
    var all := keys1 + keys2 + host + user + agent;
    assert Fit(all, 3) ==> AllCompatible(all) && AllProper(all);
    hide Fit, OneStep, KeyStep, HostStep, UserStep, AgentStep;
    AddStep([], 0, keys1, 0);
    AddStep(keys1, 0, keys2, 0);
    AddStep(keys1 + keys2, 0, host, 1);
    AddStep(keys1 + keys2 + host, 1, user, 2);
    AddStep(keys1 + keys2 + host + user, 2, agent, 3);
  }

  /** On success the document has both SSH keys, the host name, the user with its password line,
      and a command that installs the guest agent: whatever of these was asked for. */
  lemma CreatedDocument(y: Yaml, content: string, r: Request)
    requires Lawful(y) && Steps(r) != [] && ChainText(y, content, Steps(r)).Ok?
    ensures
      var d := DocOf(y, ChainText(y, content, Steps(r)).value);
      d.Ok? && forall i :: 0 <= i < |Steps(r)| ==> Assured(Steps(r)[i], d.value)
  {
    StepsFit(r);
    ChainAssures(y, content, Steps(r));
  }

  /** Steps that leave a key alone leave it alone together. */
  lemma {:induction false} ChainLeaves(y: Yaml, content: string, steps: seq<Injector>, k: string)
    requires Lawful(y) && ChainText(y, content, steps).Ok? && DocOf(y, content).Ok?
    requires forall i :: 0 <= i < |steps| ==> k !in Footprint(steps[i])
    ensures
      var d := DocOf(y, ChainText(y, content, steps).value);
      d.Ok? && SameAt(DocOf(y, content).value, d.value, k)
  {
    if steps != [] {
      var front, last := steps[..|steps| - 1], steps[|steps| - 1];
      ChainLeaves(y, content, front, k);
      var text := ChainText(y, content, front).value;
      TextFollowsDoc(y, text, last);
      OutsideUntouched(last, DocOf(y, text).value, k);
      hide Apply, InjectText, DocOf, Footprint;
    }
  }

  lemma {:induction false} ChainParses(y: Yaml, content: string, steps: seq<Injector>)
    requires steps != [] && ChainText(y, content, steps).Ok?
    ensures DocOf(y, content).Ok?
  {
    if |steps| > 1 {
      ChainParses(y, content, steps[..|steps| - 1]);
    }
  }

  lemma UserWritesPassword(y: Yaml, content: string, inj: Injector)
    requires Lawful(y) && inj.User? && InjectText(y, content, inj).Ok?
    ensures DocOf(y, content).Ok? && DocOf(y, InjectText(y, content, inj).value).Ok?
    ensures Get(DocOf(y, InjectText(y, content, inj).value).value, "chpasswd")
         == Chpasswd(Get(DocOf(y, content).value, "chpasswd"), inj.name + ":" + inj.password)
  {
    TextFollowsDoc(y, content, inj);
    hide InjectText, DocOf, Chpasswd, UsersWith;
  }

  /** In the finished document the asked-for password line stands on a line of its own exactly
      when it holds no newline and either did so in the document that came in or was not
      contained in its list at all. */
  lemma CreatedPasswordLine(y: Yaml, content: string, r: Request)
    requires Lawful(y) && TrimSpace(r.username) != "" && r.password != ""
    requires ChainText(y, content, Steps(r)).Ok?
    ensures DocOf(y, content).Ok? && DocOf(y, ChainText(y, content, Steps(r)).value).Ok?
    ensures
      var block := Get(DocOf(y, content).value, "chpasswd");
      var after := Get(DocOf(y, ChainText(y, content, Steps(r)).value).value, "chpasswd");
      var line := TrimSpace(r.username) + ":" + r.password;
      Alone(after, line) <==>
        '\n' !in line && (Alone(block, line) || !Contains(TextOf(Get(FieldsOf(block), "list")), line))
  {
    CreatedChpasswd(y, content, r);
    hide ChainText, DocOf, Steps, Chpasswd, Contains, Alone, TrimSpace;
    PasswordLineAloneIff(Get(DocOf(y, content).value, "chpasswd"), TrimSpace(r.username) + ":" + r.password);
  }

  /** All password entries of the incoming document are in the finished one exactly when it did
      not hold them as a list (or the new line repeats them). */
  lemma CreatedPasswordEntries(y: Yaml, content: string, r: Request)
    requires Lawful(y) && TrimSpace(r.username) != "" && r.password != ""
    requires ChainText(y, content, Steps(r)).Ok?
    ensures DocOf(y, content).Ok? && DocOf(y, ChainText(y, content, Steps(r)).value).Ok?
    ensures
      var block := Get(DocOf(y, content).value, "chpasswd");
      var after := Get(DocOf(y, ChainText(y, content, Steps(r)).value).value, "chpasswd");
      (forall p :: Entry(block, p) ==> Entry(after, p)) <==> ListedInLine(block, TrimSpace(r.username) + ":" + r.password)
  {
    CreatedChpasswd(y, content, r);
    hide ChainText, DocOf, Steps, Chpasswd, Entry, ListedInLine, TrimSpace;
    PasswordEntriesStayIff(Get(DocOf(y, content).value, "chpasswd"), TrimSpace(r.username) + ":" + r.password);
  }

  /** What becomes of the chpasswd block in the whole chain. */
  lemma CreatedChpasswd(y: Yaml, content: string, r: Request)
    requires Lawful(y) && TrimSpace(r.username) != "" && r.password != ""
    requires ChainText(y, content, Steps(r)).Ok?
    ensures DocOf(y, content).Ok? && DocOf(y, ChainText(y, content, Steps(r)).value).Ok?
    ensures Get(DocOf(y, ChainText(y, content, Steps(r)).value).value, "chpasswd")
         == Chpasswd(Get(DocOf(y, content).value, "chpasswd"), TrimSpace(r.username) + ":" + r.password)
  {
    var before := KeyStep(r.pubKey) + KeyStep(r.sshPublicKey) + HostStep(r.hostname);
    var user := User(TrimSpace(r.username), r.password, r.sshPublicKey);
    hide TrimSpace, KeyStep, HostStep, AgentStep, Chpasswd, Footprint, ChainText, DocOf;
    AwayFromPasswords(r);
    assert Steps(r) == before + [user] + AgentStep(r.distro);
    ChainParses(y, content, Steps(r));
    UserAmongOthers(y, content, before, user, AgentStep(r.distro));
  }

  lemma AwayFromPasswords(r: Request)
    ensures
      var before := KeyStep(r.pubKey) + KeyStep(r.sshPublicKey) + HostStep(r.hostname);
      && (forall i :: 0 <= i < |before| ==> "chpasswd" !in Footprint(before[i]))
      && forall i :: 0 <= i < |AgentStep(r.distro)| ==> "chpasswd" !in Footprint(AgentStep(r.distro)[i])
  {
    hide TrimSpace, GuestAgentCommand;
  }

  lemma UserAmongOthers(y: Yaml, content: string, before: seq<Injector>, user: Injector, after: seq<Injector>)
    requires Lawful(y) && user.User? && ChainText(y, content, before + [user] + after).Ok? && DocOf(y, content).Ok?
    requires forall i :: 0 <= i < |before| ==> "chpasswd" !in Footprint(before[i])
    requires forall i :: 0 <= i < |after| ==> "chpasswd" !in Footprint(after[i])
    ensures
      var d := DocOf(y, ChainText(y, content, before + [user] + after).value);
      d.Ok? && Get(d.value, "chpasswd")
            == Chpasswd(Get(DocOf(y, content).value, "chpasswd"), user.name + ":" + user.password)
  {
    hide Chpasswd, Footprint, ChainText, DocOf, InjectText;
    ChainConcat(y, content, before + [user], after);
    ChainConcat(y, content, before, [user]);
    var t1 := ChainText(y, content, before).value;
    ChainLeaves(y, content, before, "chpasswd");
    ChainOne(y, t1, user);
    UserWritesPassword(y, t1, user);
    ChainLeaves(y, InjectText(y, t1, user).value, after, "chpasswd");
  }

  /* ---------- the code ---------- */

  lemma ChainOne(y: Yaml, content: string, inj: Injector)
    ensures ChainText(y, content, [inj]) == InjectText(y, content, inj)
  {
  }

  lemma {:induction false} ChainConcat(y: Yaml, content: string, a: seq<Injector>, b: seq<Injector>)
    ensures ChainText(y, content, a + b) ==
      match ChainText(y, content, a) {
        case Err(e) => Err(e)
        case Ok(text) => ChainText(y, text, b)
      }
    decreases |b|
  {
    if b == [] {
      assert a + b == a;
    } else {
      assert (a + b)[..|a + b| - 1] == a + b[..|b| - 1];
      ChainConcat(y, content, a, b[..|b| - 1]);
    }
  }

  method InjectSSHAuthorizedKey(y: Yaml, content: string, pubKey: string) returns (r: Result<string>)
    ensures r == ChainText(y, content, KeyStep(pubKey))
  {
    var key := TrimSpace(pubKey);
    if key == "" {
      return Ok(content);
    }
    ChainOne(y, content, SshKey(key));
    var text := content;
    if TrimSpace(text) == "" {
      text := HEADER;
    }
    var parsed := y.parse(text);
    if parsed.Err? {
      return Err(parsed.reason);
    }
    var doc := parsed.value;
    var listed := Items(Get(doc, SSH_KEYS));
    if listed.Err? {
      return Err(listed.reason);
    }
    var keys := listed.value;
    for i := 0 to |keys|
      invariant forall k :: 0 <= k < i ==> !(keys[k].Str? && TrimSpace(keys[k].text) == key)
    {
      if keys[i].Str? && TrimSpace(keys[i].text) == key {
        return Ok(text);
      }
    }
    keys := keys + [Str(key)];
    doc := doc[SSH_KEYS := List(keys)];
    r := Ok(HEADER + y.marshal(doc));
  }

  method InjectQEMUGuestAgent(y: Yaml, content: string, distro: string) returns (r: Result<string>)
    ensures r == ChainText(y, content, AgentStep(distro))
  {
    hide GuestAgentCommand;
    var command := GuestAgentCommand(distro);
    if command == "" {
      return Ok(content);
    }
    ChainOne(y, content, GuestAgent(command));
    var text := content;
    if TrimSpace(text) == "" {
      text := HEADER;
    }
    var parsed := y.parse(text);
    if parsed.Err? {
      return Err(parsed.reason);
    }
    var doc := parsed.value;
    var listed := Items(Get(doc, RUNCMD));
    if listed.Err? {
      return Err(listed.reason);
    }
    var runcmd := listed.value;
    for i := 0 to |runcmd|
      invariant forall k :: 0 <= k < i ==> !MentionsAgent(runcmd[k])
    {
      if MentionsAgent(runcmd[i]) {
        return Ok(text);
      }
    }
    runcmd := runcmd + [List([Str("sh"), Str("-c"), Str(command)])];
    doc := doc[RUNCMD := List(runcmd)];
    r := Ok(HEADER + y.marshal(doc));
  }

  method InjectHostname(y: Yaml, content: string, hostname: string) returns (r: Result<string>)
    ensures r == ChainText(y, content, HostStep(hostname))
  {
    var host := TrimSpace(hostname);
    if host == "" {
      return Ok(content);
    }
    ChainOne(y, content, Hostname(host));
    var text := content;
    if TrimSpace(text) == "" {
      text := HEADER;
    }
    var parsed := y.parse(text);
    if parsed.Err? {
      return Err(parsed.reason);
    }
    var doc := parsed.value;
    doc := doc["hostname" := Str(host)];
    doc := doc["fqdn" := Str(host)];
    doc := doc["preserve_hostname" := Bool(false)];
    r := Ok(HEADER + y.marshal(doc));
  }

  /** The users block: the list with the user appended unless it is there already. */
  method AddUser(users: seq<Node>, name: string, sshKey: string) returns (r: seq<Node>)
    ensures r == UsersWith(users, name, sshKey)
  {
    for i := 0 to |users|
      invariant forall k :: 0 <= k < i ==> !IsUser(users[k], name)
    {
      if users[i].Map? && "name" in users[i].fields && users[i].fields["name"] == Str(name) {
        assert IsUser(users[i], name);
        return users;
      }
    }
    r := users + [UserEntry(name, sshKey)];
  }

  /** The chpasswd block: the password line added unless it is contained already. */
  method SetPassword(block: Node, line: string) returns (r: Node)
    ensures r == Chpasswd(block, line)
  {
    var chpasswd := FieldsOf(block);
    var existing := TextOf(Get(chpasswd, "list"));
    if !Contains(existing, line) {
      if existing == "" {
        chpasswd := chpasswd["list" := Str(line + "\n")];
      } else {
        chpasswd := chpasswd["list" := Str(TrimNewlines(existing) + "\n" + line + "\n")];
      }
    }
    if "expire" !in chpasswd {
      chpasswd := chpasswd["expire" := Bool(false)];
    }
    r := Map(chpasswd);
  }

  method InjectUserWithPassword(y: Yaml, content: string, username: string, password: string, sshPubKey: string)
    returns (r: Result<string>)
    ensures r == ChainText(y, content, UserStep(username, password, sshPubKey))
  {
    hide UsersWith, Chpasswd;
    var name := TrimSpace(username);
    if name == "" || password == "" {
      return Ok(content);
    }
    ChainOne(y, content, User(name, password, sshPubKey));
    var text := content;
    if TrimSpace(text) == "" {
      text := HEADER;
    }
    var parsed := y.parse(text);
    if parsed.Err? {
      return Err(parsed.reason);
    }
    var doc := parsed.value;
    var listed := UsersOf(Get(doc, "users"));
    if listed.Err? {
      return Err(listed.reason);
    }
    var users := AddUser(listed.value, name, sshPubKey);
    var chpasswd := SetPassword(Get(doc, "chpasswd"), name + ":" + password);
    doc := doc["users" := List(users)];
    doc := doc["chpasswd" := chpasswd];
    doc := doc["ssh_pwauth" := Bool(true)];
    r := Ok(HEADER + y.marshal(doc));
  }

  /** The cloud-init part of handleCreateVM: it fails exactly when a user is asked for without
      a password or some step fails, and otherwise gives what the chain gives. */
  method RewriteCloudInit(y: Yaml, content: string, q: Request) returns (r: Result<string>)
    ensures r.Ok? <==> !(q.username != "" && q.password == "") && ChainText(y, content, Steps(q)).Ok?
    ensures r.Ok? ==> r == ChainText(y, content, Steps(q))
  {
    ghost var s1, s2, s3, s4 := KeyStep(q.pubKey), KeyStep(q.sshPublicKey), HostStep(q.hostname),
      UserStep(q.username, q.password, q.sshPublicKey);
    ChainConcat(y, content, s1, s2);
    ChainConcat(y, content, s1 + s2, s3);
    ChainConcat(y, content, s1 + s2 + s3, s4);
    ChainConcat(y, content, s1 + s2 + s3 + s4, AgentStep(q.distro));
    assert KeyStep("") == HostStep("") == UserStep("", q.password, q.sshPublicKey) == [];
    assert TrimSpace(q.sshPublicKey) == "" ==> s2 == [];
    hide ChainText, KeyStep, HostStep, UserStep, AgentStep;
    var text := content;
    ChainNothing(y, text);
    if q.pubKey != "" {
      var merged := InjectSSHAuthorizedKey(y, text, q.pubKey);
      if merged.Err? {
        return merged;
      }
      text := merged.value;
    }
    ChainNothing(y, text);
    if TrimSpace(q.sshPublicKey) != "" {
      var merged := InjectSSHAuthorizedKey(y, text, q.sshPublicKey);
      if merged.Err? {
        return merged;
      }
      text := merged.value;
    }
    ChainNothing(y, text);
    if q.hostname != "" {
      var merged := InjectHostname(y, text, q.hostname);
      if merged.Err? {
        return merged;
      }
      text := merged.value;
    }
    ChainNothing(y, text);
    if q.username != "" {
      if q.password == "" {
        return Err("password is required when username is set");
      }
      var merged := InjectUserWithPassword(y, text, q.username, q.password, q.sshPublicKey);
      if merged.Err? {
        return merged;
      }
      text := merged.value;
    }
    r := InjectQEMUGuestAgent(y, text, q.distro);
  }

  lemma ChainNothing(y: Yaml, content: string)
    ensures ChainText(y, content, []) == Ok(content)
  {
  }
}
