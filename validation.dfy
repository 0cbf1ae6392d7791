/**
 * The checks `create` runs before saving (service/AccountServiceImpl.kt,
 * lines 13-22): six assertions in a fixed order, each failing with its own
 * message; the first one that fails ends the call.
 */
module Validation {
  import opened Wrappers
  import opened AccountModel

  const NameMin: nat := 5
  const DocumentMin: nat := 11
  const PhoneMin: nat := 9

  const NameBlank: string := "[name] nao pode estar em branco!"
  const NameShort: string := "[name] deve ter no mínimo 5 caracteres!"
  const DocumentBlank: string := "[document] nao pode estar em branco!"
  const DocumentShort: string := "[document] deve ter no mínimo 11 caracteres!"
  const PhoneBlank: string := "[phone] nao pode estar em branco!"
  const PhoneShort: string := "[phone] deve ter no mínimo 9 caracteres!"

  /** Spring's `Assert.hasLength` on a non-null string. */
  predicate HasLength(s: string)
  {
    |s| > 0
  }

  /**
   * The validation chain of `create`, fail-fast: the name, then the
   * document, then the phone; for each field emptiness before length.
   */
  function Validate(a: Account): (v: Outcome)
    ensures v.Pass? <==> NameMin <= |a.name| && DocumentMin <= |a.document| && PhoneMin <= |a.phone|
    ensures v.Fail? ==> v.message in Messages()
  {
    if !HasLength(a.name) then Fail(NameBlank)
    else if !(|a.name| >= NameMin) then Fail(NameShort)
    else if !HasLength(a.document) then Fail(DocumentBlank)
    else if !(|a.document| >= DocumentMin) then Fail(DocumentShort)
    else if !HasLength(a.phone) then Fail(PhoneBlank)
    else if !(|a.phone| >= PhoneMin) then Fail(PhoneShort)
    else Pass
  }

  /** The six messages validation can report. */
  function Messages(): set<string>
  {
    {NameBlank, NameShort, DocumentBlank, DocumentShort, PhoneBlank, PhoneShort}
  }

  // ---------------------------------------------------------------------
  // An independent reference: the checks as an ordered list, and the
  // general notion of "the first failing check".
  // ---------------------------------------------------------------------

  /** One assertion: whether it holds, and the message it fails with. */
  datatype Check = Check(holds: bool, message: string)

  /** The assertions of `create`, in source order. */
  function Checks(a: Account): (cs: seq<Check>)
    ensures |cs| == 6
  {
    [ Check(HasLength(a.name), NameBlank),
      Check(|a.name| >= NameMin, NameShort),
      Check(HasLength(a.document), DocumentBlank),
      Check(|a.document| >= DocumentMin, DocumentShort),
      Check(HasLength(a.phone), PhoneBlank),
      Check(|a.phone| >= PhoneMin, PhoneShort) ]
  }

  /** Runs a list of checks fail-fast. */
  function FirstFailure(cs: seq<Check>): Outcome
  {
    if cs == [] then Pass
    else if !cs[0].holds then Fail(cs[0].message)
    else FirstFailure(cs[1..])
  }

  /**
   * Fail-fast semantics: the list passes exactly when every check holds,
   * and otherwise reports the message of a failing check all of whose
   * predecessors hold.
   */
  lemma {:induction false} FirstFailureIsFirst(cs: seq<Check>)
    ensures FirstFailure(cs).Pass? <==> forall i :: 0 <= i < |cs| ==> cs[i].holds
    ensures FirstFailure(cs).Fail? ==>
      exists i :: 0 <= i < |cs| && !cs[i].holds && FirstFailure(cs).message == cs[i].message &&
        forall j :: 0 <= j < i ==> cs[j].holds
  {
    if cs != [] && cs[0].holds {
      FirstFailureIsFirst(cs[1..]);
      if FirstFailure(cs).Fail? {
        var i :| 0 <= i < |cs[1..]| && !cs[1..][i].holds && FirstFailure(cs[1..]).message == cs[1..][i].message &&
          forall j :: 0 <= j < i ==> cs[1..][j].holds;
        assert !cs[i + 1].holds;
        assert forall j :: 0 <= j < i + 1 ==> cs[j].holds by {
          forall j | 0 <= j < i + 1 ensures cs[j].holds {
            if j > 0 { assert cs[j] == cs[1..][j - 1]; }
          }
        }
      } else {
        forall i | 0 <= i < |cs| ensures cs[i].holds {
          if i > 0 { assert cs[i] == cs[1..][i - 1]; }
        }
      }
    }
  }

  /** The if-chain of `create` is the fail-fast run of its six checks. */
  lemma ValidateIsFirstFailure(a: Account)
    ensures Validate(a) == FirstFailure(Checks(a))
  {
    var cs := Checks(a);
    assert cs[6..] == [];
    assert cs[5..][1..] == cs[6..];
    assert FirstFailure(cs[5..]) == if !cs[5].holds then Fail(PhoneShort) else Pass;
    assert cs[4..][1..] == cs[5..];
    assert FirstFailure(cs[4..]) == if !cs[4].holds then Fail(PhoneBlank) else FirstFailure(cs[5..]);
    assert cs[3..][1..] == cs[4..];
    assert FirstFailure(cs[3..]) == if !cs[3].holds then Fail(DocumentShort) else FirstFailure(cs[4..]);
    assert cs[2..][1..] == cs[3..];
    assert FirstFailure(cs[2..]) == if !cs[2].holds then Fail(DocumentBlank) else FirstFailure(cs[3..]);
    assert cs[1..][1..] == cs[2..];
    assert FirstFailure(cs[1..]) == if !cs[1].holds then Fail(NameShort) else FirstFailure(cs[2..]);
  }

  /**
   * The reported message belongs to the first failing check: every check
   * before it holds and the check that carries it does not.
   */
  lemma ValidateReportsFirstFailing(a: Account)
    ensures Validate(a).Fail? ==>
      exists i :: 0 <= i < 6 && !Checks(a)[i].holds && Validate(a).message == Checks(a)[i].message &&
        forall j :: 0 <= j < i ==> Checks(a)[j].holds
  {
    ValidateIsFirstFailure(a);
    FirstFailureIsFirst(Checks(a));
  }

  /**
   * An empty field is reported as blank, never as too short; a "too short"
   * message is reported only for a non-empty field that is shorter than
   * its minimum.
   */
  lemma BlankBeforeShort(a: Account)
    ensures |a.name| == 0 ==> Validate(a) == Fail(NameBlank)
    ensures |a.name| >= NameMin && |a.document| == 0 ==> Validate(a) == Fail(DocumentBlank)
    ensures |a.name| >= NameMin && |a.document| >= DocumentMin && |a.phone| == 0 ==> Validate(a) == Fail(PhoneBlank)
    ensures Validate(a) == Fail(NameShort) <==> 0 < |a.name| < NameMin
    ensures Validate(a) == Fail(DocumentShort) <==> |a.name| >= NameMin && 0 < |a.document| < DocumentMin
    ensures Validate(a) == Fail(PhoneShort) <==>
      |a.name| >= NameMin && |a.document| >= DocumentMin && 0 < |a.phone| < PhoneMin
  {
  }

  /** The six validation cases of the controller tests, with their exact messages. */
  lemma ControllerTestCases()
    ensures Validate(Account(None, "Pedro Vieira", "493.166.368-09", "(11)98822-0443")) == Pass
    ensures Validate(Account(None, "", "493.166.368-09", "(11)98822-0443")) == Fail("[name] nao pode estar em branco!")
    ensures Validate(Account(None, "test", "493.166.368-09", "(11)98822-0443")) == Fail("[name] deve ter no mínimo 5 caracteres!")
    ensures Validate(Account(None, "testee", "", "(11)98822-0443")) == Fail("[document] nao pode estar em branco!")
    ensures Validate(Account(None, "testee", "4931663680", "(11)98822-0443")) == Fail("[document] deve ter no mínimo 11 caracteres!")
    ensures Validate(Account(None, "testee", "49316636809", "")) == Fail("[phone] nao pode estar em branco!")
    ensures Validate(Account(None, "testee", "49316636809", "98822044")) == Fail("[phone] deve ter no mínimo 9 caracteres!")
  {
  }
}
