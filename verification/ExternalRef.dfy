/** The textual external reference `<allocationId>:<generation>:<pid>`. */
module ExternalRef {
  import opened Options
  import opened Text
  import opened Provisioner
  import ProvisionerSafety

  datatype Parsed = Parsed(allocationId: string, generation: nat, pid: nat)

  function ExternalRefOf(allocationId: string, generation: nat, pid: nat): string {
    allocationId + ":" + Decimal(generation) + ":" + Decimal(pid)
  }

  // `number` is JavaScript's Number: the integer a text denotes, or None for NaN and fractions.
  function ParseExternalRef(number: string -> Option<int>, text: string): Option<Parsed> {
    var parts := Split(text, ':');
    if |parts| != 3 || parts[0] == "" then None
    else
      var generation := number(parts[1]);
      var pid := number(parts[2]);
      if generation.None? || generation.value < 0 || pid.None? || pid.value <= 0 then None
      else Some(Parsed(parts[0], generation.value, pid.value))
  }

  // Number reads back what String prints for a natural number.
  ghost predicate ReadsDecimals(number: string -> Option<int>) {
    forall n: nat :: number(Decimal(n)) == Some(n)
  }

  // The pattern allocation ids are held to before they name a directory.
  predicate ValidAllocationId(id: string) {
    id != "" && forall c | c in id ::
      'A' <= c <= 'Z' || 'a' <= c <= 'z' || '0' <= c <= '9' || c == '.' || c == '_' || c == '-'
  }

  lemma SplitPrinted(id: string, generation: nat, pid: nat)
    ensures var parts := Split(ExternalRefOf(id, generation, pid), ':');
      if ':' in id then |parts| > 3 else parts == [id, Decimal(generation), Decimal(pid)]
  {
    hide Decimal, Split;
    var tail := Decimal(generation) + [':'] + Decimal(pid);
    assert ExternalRefOf(id, generation, pid) == id + [':'] + tail;
    SplitPrefix(Decimal(generation), ':', Decimal(pid));
    SplitWhole(Decimal(pid), ':');
    if ':' in id {
      SplitCount(id, ':', tail);
      SplitSome(id, ':');
    } else {
      SplitPrefix(id, ':', tail);
    }
  }

  /** A printed reference parses back exactly when the id is not empty and has no colon and the pid is not 0;
      otherwise it does not parse at all. */
  lemma ParseOfPrinted(number: string -> Option<int>, id: string, generation: nat, pid: nat)
    requires ReadsDecimals(number)
    ensures ParseExternalRef(number, ExternalRefOf(id, generation, pid)) ==
            if id != "" && ':' !in id && pid > 0 then Some(Parsed(id, generation, pid)) else None
  {
    SplitPrinted(id, generation, pid);
  }

  /** Valid ids always parse back, so references are equal as text only if they name the same unit. */
  lemma ExternalRefsAreInjective(number: string -> Option<int>, id: string, g: nat, p: nat,
                                 id': string, g': nat, p': nat)
    requires ReadsDecimals(number) && ValidAllocationId(id) && ValidAllocationId(id') && p > 0 && p' > 0
    requires ExternalRefOf(id, g, p) == ExternalRefOf(id', g', p')
    ensures id == id' && g == g' && p == p'
  {
    ParseOfPrinted(number, id, g, p);
    ParseOfPrinted(number, id', g', p');
  }

  /** Every reference recorded in a disciplined run, listings failing or not, parses back to the allocation
      the record is of, its process and a generation no newer than the record's, the record's own while it
      is ensured. */
  lemma RecordedRefParsesBack(number: string -> Option<int>, steps: seq<Step>, s: State)
    requires ReadsDecimals(number) && ValidAllocationId(s.allocation)
    requires Run(CALLER_RULES, steps, s) && s.record.Some? && s.record.value.externalRef.Some?
    ensures var id, u := s.record.value.allocationId, s.record.value.externalRef.value;
      var parsed := ParseExternalRef(number, ExternalRefOf(id, u.generation, u.pid));
      && id == s.allocation && parsed == Some(Parsed(id, u.generation, u.pid))
      && parsed.value.generation <= s.record.value.generation
      && (s.record.value.desired.Ensured? ==> parsed.value.generation == s.record.value.generation)
  {
    ProvisionerSafety.RecordedUnitIsFenced(steps, s);
    var u := s.record.value.externalRef.value;
    ParseOfPrinted(number, s.allocation, u.generation, u.pid);
  }
}
