/** The command-line conventions the two role scripts share: `--key=PATH`,
    `--role=NAME` (lower-cased, `admin` by default) and the two valid roles. */
module ScriptArgs {
  import opened Text

  const VALID_ROLES: seq<string> := ["admin", "operational"]
  const KEY_FLAG: string := "--key="
  const ROLE_FLAG: string := "--role="

  /** What follows `flag` in the last argument that starts with it. */
  function LastFlagValue(argv: seq<string>, flag: string): Option<string>
    decreases |argv|
  {
    if argv == [] then None
    else
      var last := argv[|argv| - 1];
      if StartsWith(last, flag) then Some(last[|flag|..])
      else LastFlagValue(argv[..|argv| - 1], flag)
  }

  /** A later occurrence of a flag overrides an earlier one: the value is the
      remainder of the last argument carrying the flag, and there is none
      exactly when no argument carries it. */
  lemma {:induction false} LastOccurrenceWins(argv: seq<string>, flag: string)
    ensures var r := LastFlagValue(argv, flag);
            && (r.None? <==> forall k :: 0 <= k < |argv| ==> !StartsWith(argv[k], flag))
            && (r.Some? ==> exists k :: && 0 <= k < |argv| && StartsWith(argv[k], flag) && r.value == argv[k][|flag|..]
                                        && forall j :: k < j < |argv| ==> !StartsWith(argv[j], flag))
    decreases |argv|
  {
    if argv != [] {
      var init := argv[..|argv| - 1];
      var last := argv[|argv| - 1];
      assert forall k :: 0 <= k < |init| ==> init[k] == argv[k];
      if StartsWith(last, flag) {
        assert StartsWith(argv[|argv| - 1], flag);
      } else {
        LastOccurrenceWins(init, flag);
        var r := LastFlagValue(init, flag);
        if r.Some? {
          var k :| && 0 <= k < |init| && StartsWith(init[k], flag) && r.value == init[k][|flag|..]
                   && forall j :: k < j < |init| ==> !StartsWith(init[j], flag);
          assert StartsWith(argv[k], flag) && r.value == argv[k][|flag|..];
        }
      }
    }
  }

  /** One more argument: it wins if it carries the flag, otherwise the
      earlier value stands. */
  lemma LastFlagValueAppend(prefix: seq<string>, a: string, flag: string)
    ensures LastFlagValue(prefix + [a], flag) ==
            if StartsWith(a, flag) then Some(a[|flag|..]) else LastFlagValue(prefix, flag)
  {
    var argv := prefix + [a];
    assert argv[..|argv| - 1] == prefix && argv[|argv| - 1] == a;
  }

  /** No argument starts with both prefixes. */
  lemma KeyAndRoleFlagsDiffer(a: string)
    ensures !(StartsWith(a, KEY_FLAG) && StartsWith(a, ROLE_FLAG))
  {
    if StartsWith(a, KEY_FLAG) {
      assert a[..|KEY_FLAG|][2] == a[2] == 'k';
      assert ROLE_FLAG[2] == 'r';
    }
  }

  /** An argument that does not start with `-` is none of the options. */
  lemma DashlessIsNoFlag(a: string)
    requires a != [] && a[0] != '-'
    ensures !StartsWith(a, KEY_FLAG) && !StartsWith(a, ROLE_FLAG)
  {
    if |KEY_FLAG| <= |a| {
      assert a[..|KEY_FLAG|][0] == a[0] != KEY_FLAG[0];
    }
    if |ROLE_FLAG| <= |a| {
      assert a[..|ROLE_FLAG|][0] == a[0] != ROLE_FLAG[0];
    }
  }

  /** The role the arguments name. */
  function RoleArg(argv: seq<string>): string {
    match LastFlagValue(argv, ROLE_FLAG)
    case None => "admin"
    case Some(v) => Lower(v)
  }

  predicate IsValidRole(role: string) {
    role in VALID_ROLES
  }

  /** Role names are matched after lower-casing, so `--role=ADMIN` selects
      `admin`; with no `--role=` argument the role is `admin`. */
  lemma RoleArgExamples()
    ensures RoleArg([]) == "admin"
    ensures RoleArg(["--role=ADMIN"]) == "admin"
    ensures RoleArg(["--role=admin", "--role=Operational"]) == "operational"
  {
    assert StartsWith("--role=ADMIN", ROLE_FLAG);
    assert "--role=ADMIN"[|ROLE_FLAG|..] == "ADMIN";
    assert Lower("ADMIN") == "admin";
    var argv := ["--role=admin", "--role=Operational"];
    assert StartsWith(argv[1], ROLE_FLAG);
    assert argv[1][|ROLE_FLAG|..] == "Operational";
    assert Lower("Operational") == "operational";
  }
}
