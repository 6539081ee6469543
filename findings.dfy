/**
 * The finding model of issue.py: the `Severity` enum, the `Issue` record
 * with its severity normalisation, and the key its `__hash__` is computed from.
 */
module Findings {
  import opened Wrappers
  import Text

  /** A source position as the Java parser reports it (line, column). */
  datatype Position = Position(line: int, column: int)

  datatype Severity = Info | Warning | Error | Vulnerability

  /** The enum's integer values: INFO=0, WARNING=1, ERROR=2, VULNERABILITY=3. */
  function Value(s: Severity): nat {
    match s
    case Info => 0
    case Warning => 1
    case Error => 2
    case Vulnerability => 3
  }

  /** The enum's member names. */
  function Name(s: Severity): string {
    match s
    case Info => "INFO"
    case Warning => "WARNING"
    case Error => "ERROR"
    case Vulnerability => "VULNERABILITY"
  }

  /** Distinct members have distinct values, so the value identifies the member. */
  lemma ValueIdentifiesMember(a: Severity, b: Severity)
    ensures Value(a) == Value(b) <==> a == b
  {
  }

  /**
   * What a caller may pass as `severity`: a member of the enum, a string,
   * or any other value (None, a number, ...).
   */
  datatype SeverityArg = Member(sev: Severity) | Str(text: string) | OtherValue

  /**
   * The constructor's conversion to the enum: members are kept, strings are
   * matched case-insensitively against the four names, everything else
   * becomes WARNING.
   */
  function Normalize(arg: SeverityArg): (s: Severity)
    ensures arg.Member? ==> s == arg.sev
    ensures arg.OtherValue? ==> s == Warning
  {
    match arg
    case Member(sev) => sev
    case Str(text) =>
      var t := Text.Lower(text);
      if t == "info" then Info
      else if t == "vulnerability" then Vulnerability
      else if t == "error" then Error
      else if t == "warning" then Warning
      else Warning
    case OtherValue => Warning
  }

  lemma LowerNames()
    ensures Text.Lower("INFO") == "info"
    ensures Text.Lower("WARNING") == "warning"
    ensures Text.Lower("ERROR") == "error"
    ensures Text.Lower("VULNERABILITY") == "vulnerability"
  {
    assert Text.Lower("INFO") == "info";
    assert Text.Lower("WARNING") == "warning";
    assert Text.Lower("ERROR") == "error";
    assert Text.Lower("VULNERABILITY") == "vulnerability";
  }

  /** Any spelling of a member's name, in any case, normalises to that member. */
  lemma NormalizeByName(s: Severity, text: string)
    requires Text.Lower(text) == Text.Lower(Name(s))
    ensures Normalize(Str(text)) == s
  {
    LowerNames();
  }

  /** A string that spells none of the four names normalises to WARNING. */
  lemma NormalizeUnknownText(text: string)
    requires forall s: Severity :: Text.Lower(text) != Text.Lower(Name(s))
    ensures Normalize(Str(text)) == Warning
  {
    LowerNames();
    assert Text.Lower(text) != Text.Lower(Name(Info));
    assert Text.Lower(text) != Text.Lower(Name(Error));
    assert Text.Lower(text) != Text.Lower(Name(Vulnerability));
  }

  /** Values of the exploit dictionary an issue may carry. */
  datatype ExploitValue =
    | StrValue(s: string)
    | BoolValue(b: bool)
    | ListValue(items: seq<string>)
    | EnumValue(member: string)  // an enum member, by its name
    | NoneValue

  type ExploitDict = map<string, ExploitValue>

  /**
   * An issue's description. Rules pick one of their fixed messages (`Named`,
   * by the name of the constant holding it), fill a message template
   * (`Template`, by its key, with the values substituted in order), or pass
   * text along (`Text`). The wording of the messages is not modelled.
   */
  datatype Description = Text(text: string) | Named(constant: string) | Template(key: string, fields: seq<string>)

  datatype Issue = Issue(
    category: string,
    name: string,
    severity: Severity,
    description: Description,
    lineNumber: Option<Position>,
    fileObject: Option<string>,
    exploit: Option<ExploitDict>,
    standardId: Option<string>,
    standardDescription: Option<Description>,
    owaspRefs: seq<string>)

  /**
   * `Issue.__init__`: the severity is normalised, a missing `owasp_refs`
   * becomes the empty list, every other argument is stored as given.
   */
  function NewIssue(
    category: string, name: string, severity: SeverityArg, description: Description,
    lineNumber: Option<Position>, fileObject: Option<string>, exploit: Option<ExploitDict>,
    standardId: Option<string>, standardDescription: Option<Description>, owaspRefs: Option<seq<string>>): (i: Issue)
    ensures i.severity == Normalize(severity)
    ensures owaspRefs.None? ==> i.owaspRefs == []
    ensures owaspRefs.Some? ==> i.owaspRefs == owaspRefs.value
    ensures i.category == category && i.name == name && i.description == description
    ensures i.lineNumber == lineNumber && i.fileObject == fileObject && i.exploit == exploit
    ensures i.standardId == standardId && i.standardDescription == standardDescription
  {
    Issue(category, name, Normalize(severity), description, lineNumber, fileObject, exploit,
          standardId, standardDescription, owaspRefs.GetOr([]))
  }

  /** The triple `Issue.__hash__` hashes. */
  datatype HashKey = HashKey(name: string, fileObject: Option<string>, lineNumber: Option<Position>)

  function KeyOf(i: Issue): HashKey {
    HashKey(i.name, i.fileObject, i.lineNumber)
  }
}
