/** What the controller can ask for, and the strings it asks with. */
module Commands {

  /** A measurement with its schedule; interval 0 is a one-shot. */
  datatype Job = Job(msmId: nat, interval: nat, startTime: int, endTime: int, spread: nat, spec: string)

  /** A line as the command parser reads it. It never makes a crontab: only
      the session does. */
  datatype Parsed =
    | Measurement(job: Job)
    | HostTelemetry(spec: string)
    | Httppost(spec: string)
    | Oneoff(inner: Parsed)
    | Status
    | Stop(msmId: nat)
    | Ignored(text: string)
    | Unknown(text: string)

  datatype CrontabLine = CrontabLine(line: string, command: Parsed)

  datatype CrontabSpec = CrontabSpec(dir: string, lines: seq<CrontabLine>)

  /** What a session hands to the probe. */
  datatype Command = Crontab(spec: CrontabSpec) | Single(parsed: Parsed)

  predicate StartsWith(s: string, prefix: string) {
    |prefix| <= |s| && s[..|prefix|] == prefix
  }

  predicate EndsWith(s: string, suffix: string) {
    |suffix| <= |s| && s[|s| - |suffix|..] == suffix
  }

  predicate Contains(s: string, part: string) {
    exists i :: 0 <= i <= |s| && StartsWith(s[i..], part)
  }

  // isspace(3) in the C locale
  predicate CIsSpace(c: char) {
    c == ' ' || c == '\t' || c == '\n' || c as int == 11 || c as int == 12 || c == '\r'
  }

  function Name(s: string): string {
    if s == [] || CIsSpace(s[0]) then [] else [s[0]] + Name(s[1..])
  }
}
