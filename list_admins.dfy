/** The script that lists the users holding a role claim (or every user with
    `--all`): it reads its options, refuses an unknown role before touching
    credentials, and prints the selected users or a single "none found"
    line. */
module ListAdmins {
  import opened Text
  import opened Values
  import opened ScriptArgs

  /** `{ keyPath, all, role }`; `None` is `null`. */
  datatype ListArgs = ListArgs(keyPath: Option<string>, all: bool, role: string)

  const ALL_FLAG: string := "--all"

  lemma AllIsNoValueFlag()
    ensures !StartsWith(ALL_FLAG, KEY_FLAG) && !StartsWith(ALL_FLAG, ROLE_FLAG)
  {
    assert ALL_FLAG[2] == 'a' && KEY_FLAG[2] == 'k' && ROLE_FLAG[2] == 'r';
    assert ALL_FLAG[..|KEY_FLAG| - 1][2] == 'a';
  }

  /** What `parseArgs` returns, stated option by option: every other
      argument is ignored. */
  function ListArgsOf(argv: seq<string>): ListArgs {
    ListArgs(LastFlagValue(argv, KEY_FLAG), ALL_FLAG in argv, RoleArg(argv))
  }

  /** One more argument updates the parsed record the way the loop body does. */
  function Step(out: ListArgs, a: string): ListArgs {
    if a == ALL_FLAG then out.(all := true)
    else if StartsWith(a, KEY_FLAG) then out.(keyPath := Some(a[|KEY_FLAG|..]))
    else if StartsWith(a, ROLE_FLAG) then out.(role := Lower(a[|ROLE_FLAG|..]))
    else out
  }

  lemma ListArgsOfAppend(prefix: seq<string>, a: string)
    ensures ListArgsOf(prefix + [a]) == Step(ListArgsOf(prefix), a)
  {
    AllIsNoValueFlag();
    KeyAndRoleFlagsDiffer(a);
    LastFlagValueAppend(prefix, a, KEY_FLAG);
    LastFlagValueAppend(prefix, a, ROLE_FLAG);
    assert ALL_FLAG in prefix + [a] <==> ALL_FLAG in prefix || a == ALL_FLAG;
  }

  /** `parseArgs`: one pass over the arguments, updating the record. */
  method ParseArgs(argv: seq<string>) returns (out: ListArgs)
    ensures out == ListArgsOf(argv)
  {
    out := ListArgs(None, false, "admin");
    var i := 0;
    while i < |argv|
      invariant i <= |argv|
      invariant out == ListArgsOf(argv[..i])
    {
      var a := argv[i];
      assert argv[..i + 1] == argv[..i] + [a];
      ListArgsOfAppend(argv[..i], a);
      if a == ALL_FLAG {
        out := out.(all := true);
      } else if StartsWith(a, KEY_FLAG) {
        out := out.(keyPath := Some(a[|KEY_FLAG|..]));
      } else if StartsWith(a, ROLE_FLAG) {
        out := out.(role := Lower(a[|ROLE_FLAG|..]));
      }
      i := i + 1;
    }
    assert argv[..|argv|] == argv;
  }

  /** The defaults; a positional argument changes nothing. */
  lemma ListArgsExamples()
    ensures ListArgsOf([]) == ListArgs(None, false, "admin")
    ensures ListArgsOf(["someone@x.org"]) == ListArgs(None, false, "admin")
  {
    var a := "someone@x.org";
    DashlessIsNoFlag(a);
    assert a[0] != ALL_FLAG[0];
    ListArgsOfAppend([], a);
    assert [] + [a] == [a];
  }

  /** Any argument that is not one of the three options changes nothing,
      wherever it stands. */
  lemma NonOptionIgnored(prefix: seq<string>, a: string)
    requires a != ALL_FLAG && !StartsWith(a, KEY_FLAG) && !StartsWith(a, ROLE_FLAG)
    ensures ListArgsOf(prefix + [a]) == ListArgsOf(prefix)
  {
    ListArgsOfAppend(prefix, a);
  }

  /** `--all` sets the flag and leaves the other options at their defaults. */
  lemma AllFlagExample()
    ensures ListArgsOf([ALL_FLAG]) == ListArgs(None, true, "admin")
  {
    ListArgsOfAppend([], ALL_FLAG);
    assert [] + [ALL_FLAG] == [ALL_FLAG];
  }

  /** A user as the Admin SDK lists it; `None` claims is a user without custom
      claims. */
  datatype AuthUser = AuthUser(uid: string, email: Option<string>, customClaims: Option<Doc>)

  /** `u.customClaims && u.customClaims[role] === true`. */
  predicate HoldsRole(u: AuthUser, role: string) {
    u.customClaims.Some? && Get(u.customClaims.value, role) == Some(Bool(true))
  }

  /** `users.filter(...)`: the users holding the role, in their listed order. */
  function Filter(users: seq<AuthUser>, role: string): (r: seq<AuthUser>)
    ensures |r| <= |users|
    ensures forall u :: u in r <==> u in users && HoldsRole(u, role)
    decreases |users|
  {
    if users == [] then []
    else
      var init := users[..|users| - 1];
      var last := users[|users| - 1];
      assert users == init + [last];
      Filter(init, role) + (if HoldsRole(last, role) then [last] else [])
  }

  /** Filtering a concatenation filters each part and keeps their order. */
  lemma {:induction false} FilterOfConcat(xs: seq<AuthUser>, ys: seq<AuthUser>, role: string)
    ensures Filter(xs + ys, role) == Filter(xs, role) + Filter(ys, role)
    decreases |ys|
  {
    if ys == [] {
      assert xs + ys == xs;
    } else {
      var init := ys[..|ys| - 1];
      var last := ys[|ys| - 1];
      assert (xs + ys)[..|xs + ys| - 1] == xs + init;
      assert (xs + ys)[|xs + ys| - 1] == last;
      FilterOfConcat(xs, init, role);
    }
  }

  /** The filter keeps the listed order: the users kept from before user k
      come first, then user k if it holds the role, then those kept from
      after it. */
  lemma FilterKeepsOrder(users: seq<AuthUser>, k: nat, role: string)
    requires k < |users|
    ensures Filter(users, role) == Filter(users[..k], role) + Filter([users[k]], role) + Filter(users[k + 1..], role)
    ensures Filter([users[k]], role) == (if HoldsRole(users[k], role) then [users[k]] else [])
  {
    assert users == users[..k] + [users[k]] + users[k + 1..];
    FilterOfConcat(users[..k] + [users[k]], users[k + 1..], role);
    FilterOfConcat(users[..k], [users[k]], role);
    assert [users[k]][..0] == [];
  }

  /** The users `printUsers` prints: all of them with `--all`, otherwise the
      holders of the role. */
  function Selected(users: seq<AuthUser>, args: ListArgs): (r: seq<AuthUser>)
    ensures args.all ==> r == users
    ensures !args.all ==> forall u :: u in r <==> u in users && HoldsRole(u, args.role)
  {
    if args.all then users else Filter(users, args.role)
  }

  /** Users without claims are never selected by role. */
  lemma NoClaimsNeverSelected(users: seq<AuthUser>, args: ListArgs, u: AuthUser)
    requires !args.all && u.customClaims.None?
    ensures u !in Selected(users, args)
  {
  }

  /** One printed entry: the email, or `(no email)` when it is missing or
      empty; the uid; the claims, `{}` when there are none. */
  datatype Entry = Entry(email: string, uid: string, claims: Doc)

  function EntryOf(u: AuthUser): (e: Entry)
    ensures e.uid == u.uid
    ensures e.email == "(no email)" <==> u.email.None? || u.email == Some("") || u.email == Some("(no email)")
    ensures u.email.Some? && u.email.value != "" ==> e.email == u.email.value
    ensures u.customClaims.None? ==> e.claims == map[]
    ensures u.customClaims.Some? ==> e.claims == u.customClaims.value
  {
    Entry(if u.email.Some? && u.email.value != "" then u.email.value else "(no email)",
          u.uid,
          if u.customClaims.Some? then u.customClaims.value else map[])
  }

  /** What `printUsers` writes: one "none found" line, or one entry per
      selected user. */
  datatype Printout = NoneFound(message: string) | Listed(entries: seq<Entry>)

  function NoneFoundMessage(args: ListArgs): string {
    if args.all then "No users found." else "No " + args.role + " users found."
  }

  function PrintUsers(users: seq<AuthUser>, args: ListArgs): (p: Printout)
    ensures p.NoneFound? <==> Selected(users, args) == []
    ensures p.NoneFound? ==> p.message == NoneFoundMessage(args)
    ensures p.Listed? ==> |p.entries| == |Selected(users, args)| > 0
                          && forall k :: 0 <= k < |p.entries| ==> p.entries[k] == EntryOf(Selected(users, args)[k])
  {
    var selected := Selected(users, args);
    if selected == [] then NoneFound(NoneFoundMessage(args))
    else Listed(seq(|selected|, k requires 0 <= k < |selected| => EntryOf(selected[k])))
  }

  /** Without `--all`, every printed uid belongs to a listed user who holds
      the role; with `--all`, entry k is user k. */
  lemma PrintedUsersHoldRole(users: seq<AuthUser>, args: ListArgs, k: nat)
    requires PrintUsers(users, args).Listed? && k < |PrintUsers(users, args).entries|
    ensures !args.all ==> exists u :: u in users && HoldsRole(u, args.role) && PrintUsers(users, args).entries[k] == EntryOf(u)
    ensures args.all ==> k < |users| && PrintUsers(users, args).entries[k] == EntryOf(users[k])
  {
    var selected := Selected(users, args);
    assert selected[k] in selected;
  }

  /** The two "none found" messages differ and name the role. */
  lemma NoneFoundMessages(role: string)
    ensures NoneFoundMessage(ListArgs(None, true, role)) == "No users found."
    ensures NoneFoundMessage(ListArgs(None, false, role)) != "No users found."
    ensures NoneFoundMessage(ListArgs(None, false, "admin")) == "No admin users found."
  {
    var m := NoneFoundMessage(ListArgs(None, false, role));
    assert |m| == |role| + 16;
  }

  /** How a run ends: its exit code and what it printed on success. */
  datatype ListExit = ListExit(code: int, printout: Option<Printout>)

  /** `main`, with its I/O as inputs: `credentialsOk` is whether the Admin SDK
      could be initialised and `listing` every user (all pages) or the
      listing's failure. */
  function ListMain(argv: seq<string>, credentialsOk: bool, listing: Result<seq<AuthUser>, string>): (e: ListExit)
    ensures e.code == 0 || e.code == 1
    ensures e.code == 0 <==> IsValidRole(ListArgsOf(argv).role) && credentialsOk && listing.Ok?
    ensures e.code == 0 ==> e.printout == Some(PrintUsers(listing.value, ListArgsOf(argv)))
    ensures e.code == 1 ==> e.printout.None?
  {
    var args := ListArgsOf(argv);
    if !IsValidRole(args.role) then ListExit(1, None)
    else if !credentialsOk then ListExit(1, None)
    else
      match listing
      case Err(_) => ListExit(1, None)
      case Ok(users) => ListExit(0, Some(PrintUsers(users, args)))
  }

  /** An unknown role ends the run with code 1 whatever the credential and
      listing steps would have answered. */
  lemma InvalidRoleExitsFirst(argv: seq<string>, credentialsOk: bool, listing: Result<seq<AuthUser>, string>)
    requires !IsValidRole(ListArgsOf(argv).role)
    ensures ListMain(argv, credentialsOk, listing) == ListExit(1, None)
  {
  }

  /** `--role=ADMIN` is accepted, `--role=owner` is not. */
  lemma RoleValidationExamples()
    ensures IsValidRole(ListArgsOf(["--role=ADMIN"]).role)
    ensures !IsValidRole(ListArgsOf(["--role=owner"]).role)
  {
    RoleArgExamples();
    var argv := ["--role=owner"];
    assert StartsWith(argv[0], ROLE_FLAG);
    assert argv[0][|ROLE_FLAG|..] == "owner";
    assert Lower("owner") == "owner";
    assert "owner" != VALID_ROLES[0] && "owner" != VALID_ROLES[1];
  }
}
