/** The script that grants or removes a role claim for one user: it reads the
    email and options from the command line, refuses a missing email or an
    unknown role before touching credentials, and writes the user's claims
    with the role set to `true` or removed. */
module SetAdminClaim {
  import opened Text
  import opened Values
  import opened ScriptArgs

  /** `{ email, keyPath, unset, role }`; `None` is `null`. */
  datatype ClaimArgs = ClaimArgs(email: Option<string>, keyPath: Option<string>, unset: bool, role: string)

  const UNSET_FLAG: string := "--unset"

  /** An argument that is none of the options. */
  predicate IsPositional(a: string) {
    a != UNSET_FLAG && !StartsWith(a, KEY_FLAG) && !StartsWith(a, ROLE_FLAG)
  }

  lemma UnsetIsNoValueFlag()
    ensures !StartsWith(UNSET_FLAG, KEY_FLAG) && !StartsWith(UNSET_FLAG, ROLE_FLAG)
  {
    assert UNSET_FLAG[2] == 'u' && KEY_FLAG[2] == 'k' && ROLE_FLAG[2] == 'r';
    assert UNSET_FLAG[..|KEY_FLAG|][2] == 'u';
  }

  /** The positional arguments, in order. */
  function Positionals(argv: seq<string>): (ps: seq<string>)
    ensures |ps| <= |argv|
    ensures forall k :: 0 <= k < |ps| ==> ps[k] in argv && IsPositional(ps[k])
    decreases |argv|
  {
    if argv == [] then []
    else
      var init := argv[..|argv| - 1];
      var last := argv[|argv| - 1];
      assert forall k :: 0 <= k < |init| ==> init[k] in argv;
      Positionals(init) + (if IsPositional(last) then [last] else [])
  }

  /** The email the positional arguments give: the first non-empty one, an
      empty string when every one is empty, `null` when there is none (an
      empty email is falsy, so the next positional replaces it). */
  function EmailOf(ps: seq<string>): (r: Option<string>)
    ensures r.None? <==> ps == []
    ensures r.Some? && r.value != "" ==>
              exists k :: 0 <= k < |ps| && ps[k] == r.value && forall j :: 0 <= j < k ==> ps[j] == ""
    ensures r == Some("") ==> forall k :: 0 <= k < |ps| ==> ps[k] == ""
    decreases |ps|
  {
    if ps == [] then None
    else
      var init := ps[..|ps| - 1];
      assert forall k :: 0 <= k < |init| ==> init[k] == ps[k];
      var e := EmailOf(init);
      if e.None? || e == Some("") then Some(ps[|ps| - 1]) else e
  }

  /** What `parseArgs` returns, stated argument kind by argument kind. */
  function ClaimArgsOf(argv: seq<string>): ClaimArgs {
    ClaimArgs(EmailOf(Positionals(argv)), LastFlagValue(argv, KEY_FLAG), UNSET_FLAG in argv, RoleArg(argv))
  }

  /** One more argument updates the parsed record the way the loop body does. */
  function Step(out: ClaimArgs, a: string): ClaimArgs {
    if a == UNSET_FLAG then out.(unset := true)
    else if StartsWith(a, KEY_FLAG) then out.(keyPath := Some(a[|KEY_FLAG|..]))
    else if StartsWith(a, ROLE_FLAG) then out.(role := Lower(a[|ROLE_FLAG|..]))
    else if out.email.None? || out.email == Some("") then out.(email := Some(a))
    else out
  }

  lemma PositionalsAppend(prefix: seq<string>, a: string)
    ensures Positionals(prefix + [a]) == Positionals(prefix) + (if IsPositional(a) then [a] else [])
  {
    var argv := prefix + [a];
    assert argv[..|argv| - 1] == prefix && argv[|argv| - 1] == a;
  }

  lemma EmailOfAppend(ps: seq<string>, a: string)
    ensures EmailOf(ps + [a]) == if EmailOf(ps).None? || EmailOf(ps) == Some("") then Some(a) else EmailOf(ps)
  {
    var qs := ps + [a];
    assert qs[..|qs| - 1] == ps && qs[|qs| - 1] == a;
  }

  lemma EmailFieldAppend(prefix: seq<string>, a: string)
    ensures ClaimArgsOf(prefix + [a]).email == Step(ClaimArgsOf(prefix), a).email
  {
    UnsetIsNoValueFlag();
    PositionalsAppend(prefix, a);
    var ps := Positionals(prefix);
    EmailOfAppend(ps, a);
    assert ps + [] == ps;
  }

  lemma FlagFieldsAppend(prefix: seq<string>, a: string)
    ensures ClaimArgsOf(prefix + [a]).keyPath == Step(ClaimArgsOf(prefix), a).keyPath
    ensures ClaimArgsOf(prefix + [a]).role == Step(ClaimArgsOf(prefix), a).role
  {
    UnsetIsNoValueFlag();
    KeyAndRoleFlagsDiffer(a);
    LastFlagValueAppend(prefix, a, KEY_FLAG);
    LastFlagValueAppend(prefix, a, ROLE_FLAG);
  }

  lemma ClaimArgsOfAppend(prefix: seq<string>, a: string)
    ensures ClaimArgsOf(prefix + [a]) == Step(ClaimArgsOf(prefix), a)
  {
    EmailFieldAppend(prefix, a);
    FlagFieldsAppend(prefix, a);
    assert UNSET_FLAG in prefix + [a] <==> UNSET_FLAG in prefix || a == UNSET_FLAG;
  }

  /** `parseArgs`: one pass over the arguments, updating the record. */
  method ParseArgs(argv: seq<string>) returns (out: ClaimArgs)
    ensures out == ClaimArgsOf(argv)
  {
    out := ClaimArgs(None, None, false, "admin");
    var i := 0;
    while i < |argv|
      invariant i <= |argv|
      invariant out == ClaimArgsOf(argv[..i])
    {
      var a := argv[i];
      assert argv[..i + 1] == argv[..i] + [a];
      ClaimArgsOfAppend(argv[..i], a);
      if a == UNSET_FLAG {
        out := out.(unset := true);
      } else if StartsWith(a, KEY_FLAG) {
        out := out.(keyPath := Some(a[|KEY_FLAG|..]));
      } else if StartsWith(a, ROLE_FLAG) {
        out := out.(role := Lower(a[|ROLE_FLAG|..]));
      } else if out.email.None? || out.email == Some("") {
        out := out.(email := Some(a));
      }
      i := i + 1;
    }
    assert argv[..|argv|] == argv;
  }

  /** The defaults, and the first positional argument as the email with later
      ones ignored. */
  lemma ClaimArgsExamples()
    ensures ClaimArgsOf([]) == ClaimArgs(None, None, false, "admin")
    ensures ClaimArgsOf(["a@x.org", "b@x.org"]).email == Some("a@x.org")
    ensures ClaimArgsOf(["a@x.org", "--unset"]).unset
  {
    var a, b := "a@x.org", "b@x.org";
    DashlessIsNoFlag(a);
    DashlessIsNoFlag(b);
    assert a[0] != UNSET_FLAG[0] && b[0] != UNSET_FLAG[0];
    ClaimArgsOfAppend([], a);
    ClaimArgsOfAppend([a], b);
    assert [] + [a] == [a] && [a] + [b] == [a, b];
    var argv2 := ["a@x.org", "--unset"];
    assert argv2[1] == UNSET_FLAG && argv2[1] in argv2;
  }

  /** `nextClaims`: a copy of the user's claims (none counts as `{}`) with the
      role removed, or set to `true`. */
  function NextClaims(existing: Option<Doc>, role: string, unset: bool): (r: Doc)
    ensures unset ==> role !in r
    ensures !unset ==> role in r && r[role] == Bool(true)
  {
    var base := if existing.Some? then existing.value else map[];
    if unset then base - {role} else base[role := Bool(true)]
  }

  /** Only the role's key changes; every other claim is kept as it was. */
  lemma NextClaimsKeepsOthers(existing: Option<Doc>, role: string, unset: bool)
    ensures var base := if existing.Some? then existing.value else map[];
            var r := NextClaims(existing, role, unset);
            && r.Keys - {role} == base.Keys - {role}
            && forall k :: k in base && k != role ==> r[k] == base[k]
  {
  }

  /** Running the script twice with the same options gives the same claims. */
  lemma NextClaimsIdempotent(existing: Option<Doc>, role: string, unset: bool)
    ensures NextClaims(Some(NextClaims(existing, role, unset)), role, unset) == NextClaims(existing, role, unset)
  {
    var once := NextClaims(existing, role, unset);
    var twice := NextClaims(Some(once), role, unset);
    assert twice.Keys == once.Keys;
  }

  /** Setting and then unsetting a role leaves the claims as if it had only
      been unset; unsetting a role the user never had restores the claims. */
  lemma SetThenUnset(existing: Option<Doc>, role: string)
    ensures NextClaims(Some(NextClaims(existing, role, false)), role, true) == NextClaims(existing, role, true)
    ensures existing.Some? && role !in existing.value ==> NextClaims(existing, role, true) == existing.value
  {
    var r1 := NextClaims(Some(NextClaims(existing, role, false)), role, true);
    var r2 := NextClaims(existing, role, true);
    assert r1.Keys == r2.Keys;
    if existing.Some? && role !in existing.value {
      assert r2.Keys == existing.value.Keys;
    }
  }

  /** How a run ends: its exit code and the claims it wrote, if any. */
  datatype Exit = Exit(code: int, written: Option<Doc>)

  /** `main`, with its I/O as inputs: `credentialsOk` is whether the Admin SDK
      could be initialised, `lookup` the user's current claims (or the
      lookup's failure), `setOk` whether the claims were written and
      `readBackOk` whether reading the user back succeeded. */
  function SetClaimMain(argv: seq<string>, credentialsOk: bool, lookup: Result<Option<Doc>, string>,
                        setOk: bool, readBackOk: bool): (e: Exit)
    ensures e.code == 0 || e.code == 1
    ensures e.code == 0 <==> && ClaimArgsOf(argv).email.Some? && ClaimArgsOf(argv).email != Some("")
                             && IsValidRole(ClaimArgsOf(argv).role) && credentialsOk && lookup.Ok? && setOk && readBackOk
  {
    var a := ClaimArgsOf(argv);
    if a.email.None? || a.email == Some("") then Exit(1, None)
    else if !IsValidRole(a.role) then Exit(1, None)
    else if !credentialsOk then Exit(1, None)
    else
      match lookup
      case Err(_) => Exit(1, None)
      case Ok(existing) =>
        if !setOk then Exit(1, None)
        else
          var next := NextClaims(existing, a.role, a.unset);
          Exit(if readBackOk then 0 else 1, Some(next))
  }

  /** A missing email, and then an unknown role, end the run with code 1
      before any credential or network step: the outcome is the same whatever
      those steps would have answered, and nothing is written. */
  lemma BadArgumentsExitEarly(argv: seq<string>, credentialsOk: bool, lookup: Result<Option<Doc>, string>,
                              setOk: bool, readBackOk: bool)
    requires ClaimArgsOf(argv).email.None? || ClaimArgsOf(argv).email == Some("")
             || !IsValidRole(ClaimArgsOf(argv).role)
    ensures SetClaimMain(argv, credentialsOk, lookup, setOk, readBackOk) == Exit(1, None)
  {
  }

  /** A run that writes, writes the next claims for the parsed role. */
  lemma WrittenClaimsAreNext(argv: seq<string>, credentialsOk: bool, lookup: Result<Option<Doc>, string>,
                             setOk: bool, readBackOk: bool)
    requires SetClaimMain(argv, credentialsOk, lookup, setOk, readBackOk).written.Some?
    ensures lookup.Ok? && IsValidRole(ClaimArgsOf(argv).role)
    ensures SetClaimMain(argv, credentialsOk, lookup, setOk, readBackOk).written.value
            == NextClaims(lookup.value, ClaimArgsOf(argv).role, ClaimArgsOf(argv).unset)
  {
  }
}
