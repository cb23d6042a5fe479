/**
 * The subtype backfill run at database start-up: for weapons, enemies and
 * decorations, every row whose subtype is still the kind's default is given
 * the subtype of the first keyword group that occurs in its lower-cased
 * name, or the default again when none does. Rows with any other subtype are
 * left alone.
 */
module SubtypeBackfill {

  datatype Kind = Weapons | Enemies | Decorations

  /** One `WHEN ... THEN` arm: any of the keywords selects the subtype. */
  datatype Rule = Rule(keywords: seq<string>, subtype: string)

  /** The `ELSE` value, which is also the column default the `WHERE` selects on. */
  function Default(k: Kind): (d: string)
    ensures d in Subtypes(k)
  {
    match k
    case Weapons => "sword"
    case Enemies => "beast"
    case Decorations => "crate"
  }

  /**
   * The `CASE` arms, in the order they are tried: seven per kind, each with at
   * least one keyword and a subtype of its own, none of them the `ELSE` value.
   */
  function Rules(k: Kind): (r: seq<Rule>)
    ensures |r| == 7
    ensures forall i :: 0 <= i < |r| ==> r[i].keywords != [] && r[i].subtype in Subtypes(k) && r[i].subtype != Default(k)
    ensures forall i, j :: 0 <= i < j < |r| ==> r[i].subtype != r[j].subtype
  {
    match k
    case Weapons => [
      Rule(["staff", "wand"], "staff"),
      Rule(["dagger"], "dual-daggers"),
      Rule(["hammer", "maul"], "hammer"),
      Rule(["axe", "hatchet"], "axe"),
      Rule(["bow", "crossbow"], "bow"),
      Rule(["spear", "lance", "trident"], "spear"),
      Rule(["mace", "flail"], "mace")
    ]
    case Enemies => [
      Rule(["undead", "skeleton", "zombie"], "undead"),
      Rule(["goblin", "orc"], "goblin"),
      Rule(["demon", "devil"], "demon"),
      Rule(["ghost", "phantom", "spirit", "wraith"], "ghost"),
      Rule(["slime", "blob", "ooze"], "slime"),
      Rule(["dragon", "drake", "wyrm"], "dragon"),
      Rule(["golem"], "golem")
    ]
    case Decorations => [
      Rule(["vase", "pot", "urn"], "vase"),
      Rule(["barrel", "keg"], "barrel"),
      Rule(["painting", "portrait", "canvas"], "painting"),
      Rule(["statue", "sculpture"], "statue"),
      Rule(["chest", "treasure"], "chest"),
      Rule(["banner", "flag", "tapestry"], "banner"),
      Rule(["torch", "lamp", "lantern"], "torch")
    ]
  }

  /** Every subtype the backfill can write for kind `k`. */
  function Subtypes(k: Kind): set<string> {
    match k
    case Weapons => {"staff", "dual-daggers", "hammer", "axe", "bow", "spear", "mace", "sword"}
    case Enemies => {"undead", "goblin", "demon", "ghost", "slime", "dragon", "golem", "beast"}
    case Decorations => {"vase", "barrel", "painting", "statue", "chest", "banner", "torch", "crate"}
  }

  /** `LOWER` on one character: ASCII capitals to small letters, anything else as is. */
  function LowerChar(c: char): char {
    if 'A' <= c <= 'Z' then (c as int - 'A' as int + 'a' as int) as char else c
  }

  function Lower(s: string): (r: string)
    ensures |r| == |s| && forall i :: 0 <= i < |s| ==> r[i] == LowerChar(s[i])
  {
    if s == [] then [] else [LowerChar(s[0])] + Lower(s[1..])
  }

  lemma LowerIdempotent(s: string)
    ensures Lower(Lower(s)) == Lower(s)
  {
  }

  /** `LIKE '%keyword%'`: the keyword occurs somewhere in the string. */
  predicate Contains(s: string, keyword: string) {
    exists i :: 0 <= i <= |s| && OccursAt(s, keyword, i)
  }

  predicate OccursAt(s: string, keyword: string, i: int) {
    0 <= i <= |s| - |keyword| && s[i..i + |keyword|] == keyword
  }

  predicate Matches(rule: Rule, name: string) {
    exists w :: w in rule.keywords && Contains(name, w)
  }

  /** The `CASE` expression over a name that is already lower-cased: the first matching arm wins. */
  function Classify(rules: seq<Rule>, fallback: string, name: string): (r: string)
    ensures r == fallback || exists i :: 0 <= i < |rules| && r == rules[i].subtype
  {
    if rules == [] then fallback
    else if Matches(rules[0], name) then rules[0].subtype
    else
      var r := Classify(rules[1..], fallback, name);
      assert r != fallback ==> exists i :: 0 <= i < |rules| && r == rules[i].subtype by {
        if r != fallback {
          var j :| 0 <= j < |rules| - 1 && r == rules[1..][j].subtype;
          assert r == rules[j + 1].subtype;
        }
      }
      r
  }

  /** When no arm matches, the `ELSE` value is the result. */
  lemma {:induction false} NoMatchFallsBack(rules: seq<Rule>, fallback: string, name: string)
    requires forall i :: 0 <= i < |rules| ==> !Matches(rules[i], name)
    ensures Classify(rules, fallback, name) == fallback
  {
    if rules != [] {
      assert !Matches(rules[0], name);
      NoMatchFallsBack(rules[1..], fallback, name);
    }
  }

  /** The arm chosen is the first one that matches: every earlier arm fails. */
  lemma {:induction false} FirstMatchWins(rules: seq<Rule>, fallback: string, name: string, i: nat)
    requires i < |rules| && Matches(rules[i], name)
    requires forall j :: 0 <= j < i ==> !Matches(rules[j], name)
    ensures Classify(rules, fallback, name) == rules[i].subtype
    decreases i
  {
    if i > 0 {
      assert !Matches(rules[0], name);
      FirstMatchWins(rules[1..], fallback, name, i - 1);
    }
  }

  /** The subtype the backfill gives a row of kind `k` with this name: always one of the kind's eight. */
  function Subtype(k: Kind, name: string): (r: string)
    ensures r in Subtypes(k)
  {
    Classify(Rules(k), Default(k), Lower(name))
  }

  /** Matching ignores case: a name and its lower-cased form classify alike. */
  lemma CaseInsensitive(k: Kind, name: string)
    ensures Subtype(k, name) == Subtype(k, Lower(name))
  {
    LowerIdempotent(name);
  }

  /** A weapon whose name mentions a staff is a staff, whatever else it mentions (an axe, a bow, ...). */
  lemma StaffBeatsEverything(name: string, i: nat)
    requires i + 5 <= |name| && Lower(name)[i..i + 5] == "staff"
    ensures Subtype(Weapons, name) == "staff"
  {
    var rules := Rules(Weapons);
    var lowered := Lower(name);
    assert OccursAt(lowered, "staff", i);
    assert "staff" in rules[0].keywords;
    FirstMatchWins(rules, Default(Weapons), lowered, 0);
  }

  /** A table row: only the columns the backfill reads and writes. */
  datatype Row = Row(name: string, subtype: string)

  /**
   * One `UPDATE ... SET subtype = CASE <arms> ELSE fallback END WHERE subtype
   * = fallback`: the three statements differ only in their arms and fallback.
   */
  datatype Statement = Statement(arms: seq<Rule>, fallback: string)

  function StatementFor(k: Kind): Statement {
    Statement(Rules(k), Default(k))
  }

  /** The statement's effect on one row. */
  function BackfillRow(st: Statement, row: Row): Row {
    if row.subtype == st.fallback then row.(subtype := Classify(st.arms, st.fallback, Lower(row.name))) else row
  }

  /** The statement's effect on a whole table; row order is kept. */
  function BackfillTable(st: Statement, rows: seq<Row>): (r: seq<Row>)
    ensures |r| == |rows| && forall i :: 0 <= i < |rows| ==> r[i] == BackfillRow(st, rows[i])
  {
    if rows == [] then [] else BackfillTable(st, rows[..|rows| - 1]) + [BackfillRow(st, rows[|rows| - 1])]
  }

  /**
   * What the backfill does to a table of kind `k`: names and row order are
   * kept, rows off the default keep their subtype, and rows on the default
   * end up with a subtype of the kind, the one their name selects.
   */
  lemma BackfillEffect(k: Kind, rows: seq<Row>)
    ensures |BackfillTable(StatementFor(k), rows)| == |rows|
    ensures forall i :: 0 <= i < |rows| ==>
      && BackfillTable(StatementFor(k), rows)[i].name == rows[i].name
      && (rows[i].subtype != Default(k) ==> BackfillTable(StatementFor(k), rows)[i] == rows[i])
      && (rows[i].subtype == Default(k) ==>
            && BackfillTable(StatementFor(k), rows)[i].subtype == Subtype(k, rows[i].name)
            && BackfillTable(StatementFor(k), rows)[i].subtype in Subtypes(k))
  {
  }

  /** Running any of the statements a second time changes nothing. */
  lemma BackfillIdempotent(st: Statement, rows: seq<Row>)
    ensures BackfillTable(st, BackfillTable(st, rows)) == BackfillTable(st, rows)
  {
  }

  /** The statement on one row: a row on the fallback is classified, any other is left alone. */
  method BackfillOne(st: Statement, row: Row) returns (r: Row)
    ensures r.name == row.name
    ensures row.subtype != st.fallback ==> r == row
    ensures row.subtype == st.fallback ==> r.subtype == Classify(st.arms, st.fallback, Lower(row.name))
  {
    r := row;
    if row.subtype == st.fallback {
      r := row.(subtype := Classify(st.arms, st.fallback, Lower(row.name)));
    }
  }

  /** One statement, applied to its table in place. */
  method Backfill(st: Statement, table: array<Row>)
    modifies table
    ensures table[..] == BackfillTable(st, old(table[..]))
  {
    ghost var want := BackfillTable(st, table[..]);
    var i := 0;
    while i < table.Length
      invariant 0 <= i <= table.Length
      invariant forall j :: 0 <= j < i ==> table[j] == want[j]
      invariant forall j :: i <= j < table.Length ==> table[j] == old(table[j])
    {
      table[i] := BackfillOne(st, table[i]);
      i := i + 1;
    }
  }

  /** The start-up backfill: the weapons, enemies and decorations statements, in that order. */
  method BackfillAll(weapons: array<Row>, enemies: array<Row>, decorations: array<Row>)
    requires weapons != enemies && enemies != decorations && weapons != decorations
    modifies weapons, enemies, decorations
    ensures weapons[..] == BackfillTable(StatementFor(Weapons), old(weapons[..]))
    ensures enemies[..] == BackfillTable(StatementFor(Enemies), old(enemies[..]))
    ensures decorations[..] == BackfillTable(StatementFor(Decorations), old(decorations[..]))
  {
    Backfill(StatementFor(Weapons), weapons);
    Backfill(StatementFor(Enemies), enemies);
    Backfill(StatementFor(Decorations), decorations);
  }
}
