/** Format rules for names, keys, label values, hosts and ports: the shared
    primitive checks that every object validator uses. DNS names follow
    section 2.1 of RFC 1123 as Kubernetes restricts it: lower-case letters,
    digits and `-`, starting and ending with a letter or digit. */
module Names {
  import opened FieldPaths

  const DNS1123LabelMaxLength := 63
  const DNS1123SubdomainMaxLength := 253
  const QualifiedNameMaxLength := 63
  const LabelValueMaxLength := 63

  predicate IsLowerAlnum(c: char) { 'a' <= c <= 'z' || '0' <= c <= '9' }

  predicate IsAlnum(c: char) { IsLowerAlnum(c) || 'A' <= c <= 'Z' }

  /** Matches `[a-z0-9]([-a-z0-9]*[a-z0-9])?` (no length bound). */
  predicate LabelShaped(s: string)
  {
    && 1 <= |s|
    && IsLowerAlnum(s[0])
    && IsLowerAlnum(s[|s| - 1])
    && forall i :: 0 <= i < |s| ==> IsLowerAlnum(s[i]) || s[i] == '-'
  }

  /** A DNS-1123 label, as required of namespaces and port names. */
  predicate IsDNS1123Label(s: string)
  {
    |s| <= DNS1123LabelMaxLength && LabelShaped(s)
  }

  /** Matches `label(\.label)*` where each label is LabelShaped: every dot sits
      between two letters or digits. */
  predicate SubdomainShaped(s: string)
  {
    && 1 <= |s|
    && IsLowerAlnum(s[0])
    && IsLowerAlnum(s[|s| - 1])
    && (forall i :: 0 <= i < |s| ==> IsLowerAlnum(s[i]) || s[i] == '-' || s[i] == '.')
    && (forall i :: 0 < i < |s| - 1 && s[i] == '.' ==> IsLowerAlnum(s[i - 1]) && IsLowerAlnum(s[i + 1]))
  }

  /** A DNS-1123 subdomain, as required of most object names. */
  predicate IsDNS1123Subdomain(s: string)
  {
    |s| <= DNS1123SubdomainMaxLength && SubdomainShaped(s)
  }

  /** The first position of `c` in `s`, if any. */
  function FirstIndexOf(s: string, c: char): (r: Option<nat>)
    ensures r.None? ==> c !in s
    ensures r.Some? ==> r.value < |s| && s[r.value] == c && c !in s[..r.value]
  {
    if s == [] then None
    else if s[0] == c then Some(0)
    else
      match FirstIndexOf(s[1..], c)
      case None => None
      case Some(i) => Some(i + 1)
  }

  datatype Option<T> = None | Some(value: T)

  /** `s` cut at every occurrence of `sep`, as Go's strings.Split does. */
  function Split(s: string, sep: char): (parts: seq<string>)
    ensures 1 <= |parts|
    ensures forall i :: 0 <= i < |parts| ==> sep !in parts[i]
    decreases |s|
  {
    match FirstIndexOf(s, sep)
    case None => [s]
    case Some(i) => [s[..i]] + Split(s[i + 1..], sep)
  }

  /** A string without the separator splits into itself alone. */
  lemma SplitNone(s: string, sep: char)
    requires sep !in s
    ensures Split(s, sep) == [s]
  {
  }

  /** A string splits at the first occurrence of the separator. */
  lemma SplitAt(s: string, sep: char, i: nat)
    requires i < |s| && s[i] == sep && sep !in s[..i]
    ensures Split(s, sep) == [s[..i]] + Split(s[i + 1..], sep)
  {
  }

  /** The parts joined back with `sep` between them. */
  function Join(parts: seq<string>, sep: char): string
    requires 1 <= |parts|
  {
    if |parts| == 1 then parts[0] else parts[0] + [sep] + Join(parts[1..], sep)
  }

  /** Splitting and joining again gives back the original string. */
  lemma {:induction false} JoinSplit(s: string, sep: char)
    ensures Join(Split(s, sep), sep) == s
    decreases |s|
  {
    match FirstIndexOf(s, sep)
    case None =>
    case Some(i) =>
      var head, rest := s[..i], s[i + 1..];
      JoinSplit(rest, sep);
      assert Split(s, sep) == [head] + Split(rest, sep);
      var parts := Split(s, sep);
      assert parts[1..] == Split(rest, sep);
      assert Join(parts, sep) == head + [sep] + rest;
      assert s == head + [sep] + rest;
  }

  /** Dots joining DNS labels give a subdomain shape: the character-level
      definition above agrees with the regular expression `label(\.label)*`. */
  lemma {:induction false} JoinedLabelsAreSubdomainShaped(labels: seq<string>)
    requires 1 <= |labels|
    requires forall i :: 0 <= i < |labels| ==> LabelShaped(labels[i])
    ensures SubdomainShaped(Join(labels, '.'))
    decreases |labels|
  {
    if |labels| > 1 {
      JoinedLabelsAreSubdomainShaped(labels[1..]);
      var a, b := labels[0], Join(labels[1..], '.');
      var s := a + ['.'] + b;
      assert s == Join(labels, '.');
      forall i | 0 < i < |s| - 1 && s[i] == '.'
        ensures IsLowerAlnum(s[i - 1]) && IsLowerAlnum(s[i + 1])
      {
        if i > |a| {
          assert s[i] == b[i - |a| - 1];
          assert s[i - 1] == b[i - |a| - 2] || i == |a| + 1;
        }
      }
    }
  }

  /** Conversely, every dot-separated piece of a subdomain-shaped string is a label. */
  lemma SubdomainPiecesAreLabels(s: string)
    requires SubdomainShaped(s)
    ensures forall i :: 0 <= i < |Split(s, '.')| ==> LabelShaped(Split(s, '.')[i])
  {
    SubdomainPiecesFrom(s);
  }

  lemma {:induction false} SubdomainPiecesFrom(s: string)
    requires SubdomainShaped(s)
    ensures forall i :: 0 <= i < |Split(s, '.')| ==> LabelShaped(Split(s, '.')[i])
    decreases |s|
  {
    match FirstIndexOf(s, '.')
    case None =>
      assert Split(s, '.') == [s];
    case Some(j) =>
      var head, rest := s[..j], s[j + 1..];
      assert 0 < j < |s| - 1;
      assert IsLowerAlnum(s[j - 1]) && IsLowerAlnum(s[j + 1]);
      assert LabelShaped(head);
      assert SubdomainShaped(rest) by {
        forall k | 0 < k < |rest| - 1 && rest[k] == '.'
          ensures IsLowerAlnum(rest[k - 1]) && IsLowerAlnum(rest[k + 1])
        {
          assert s[j + 1 + k] == '.';
        }
      }
      SubdomainPiecesFrom(rest);
      assert Split(s, '.') == [head] + Split(rest, '.');
  }

  /** The name part of a qualified name: `([A-Za-z0-9][-A-Za-z0-9_.]*)?[A-Za-z0-9]`, at most 63 long. */
  predicate QualifiedNamePart(s: string)
  {
    && 1 <= |s| <= QualifiedNameMaxLength
    && IsAlnum(s[0])
    && IsAlnum(s[|s| - 1])
    && forall i :: 0 <= i < |s| ==> IsAlnum(s[i]) || s[i] in "-_."
  }

  /** A label or annotation key: a name, optionally preceded by a non-empty
      DNS-subdomain prefix and exactly one `/`. */
  predicate IsQualifiedName(s: string)
  {
    if '/' !in s then QualifiedNamePart(s)
    else exists i :: 0 <= i < |s| && s[i] == '/' && QualifiedPrefixAndName(s, i)
  }

  /** `s` is `prefix/name` with its only slash at `i`. */
  predicate QualifiedPrefixAndName(s: string, i: nat)
    requires i < |s|
  {
    && '/' !in s[..i]
    && '/' !in s[i + 1..]
    && IsDNS1123Subdomain(s[..i])
    && QualifiedNamePart(s[i + 1..])
  }

  /** A key with two slashes is never a qualified name. */
  lemma TwoSlashesNotQualified(s: string, a: nat, b: nat)
    requires a < b < |s| && s[a] == '/' && s[b] == '/'
    ensures !IsQualifiedName(s)
  {
  }

  /** The same rule stated as the Go code states it, over strings.Split on `/`:
      one part is a bare name, two parts are a non-empty subdomain prefix and a
      name, three or more parts are refused. */
  predicate QualifiedNameBySplit(s: string)
  {
    var parts := Split(s, '/');
    if |parts| == 1 then QualifiedNamePart(parts[0])
    else if |parts| == 2 then parts[0] != "" && IsDNS1123Subdomain(parts[0]) && QualifiedNamePart(parts[1])
    else false
  }

  /** The slash-position definition and the split definition agree on every string. */
  lemma QualifiedNameAgreesWithSplit(s: string)
    ensures IsQualifiedName(s) <==> QualifiedNameBySplit(s)
  {
    match FirstIndexOf(s, '/')
    case None =>
      SplitNone(s, '/');
    case Some(i) =>
      SplitAt(s, '/', i);
      var rest := s[i + 1..];
      if '/' in rest {
        var j :| 0 <= j < |rest| && rest[j] == '/';
        var r := FirstIndexOf(rest, '/');
        SplitAt(rest, '/', r.value);
        assert |Split(s, '/')| >= 3;
      } else {
        SplitNone(rest, '/');
        if QualifiedNameBySplit(s) {
          assert QualifiedPrefixAndName(s, i);
        }
      }
  }

  /** A label value: empty, or shaped like the name part of a qualified name. */
  predicate IsValidLabelValue(s: string)
  {
    s == [] || QualifiedNamePart(s)
  }

  /** A config-map data key: at most 253 characters, an optional leading dot
      and then a DNS subdomain, so `.`, `..` and `a..b` are refused. */
  predicate IsConfigMapKey(s: string)
  {
    && |s| <= DNS1123SubdomainMaxLength
    && (SubdomainShaped(s) || (1 <= |s| && s[0] == '.' && SubdomainShaped(s[1..])))
  }

  /** A name that can be one segment of a resource path: not `.` or `..`,
      and free of `/` and `%`. */
  predicate IsValidPathSegmentName(s: string)
  {
    s != "." && s != ".." && '/' !in s && '%' !in s
  }

  /** Lower-cases ASCII letters and keeps every other character. */
  function ToLower(s: string): (r: string)
    ensures |r| == |s|
    ensures forall i :: 0 <= i < |s| ==> r[i] == (if 'A' <= s[i] <= 'Z' then (s[i] as int + 32) as char else s[i])
  {
    if s == [] then [] else [if 'A' <= s[0] <= 'Z' then (s[0] as int + 32) as char else s[0]] + ToLower(s[1..])
  }

  /** One part of a dotted-quad address: one to three digits, at most 255. */
  predicate IsOctet(p: string)
  {
    1 <= |p| <= 3 && AllDigits(p) && ParseNat(p) <= 255
  }

  /** A dotted-quad IPv4 literal: four octets separated by three dots. */
  predicate IsIPv4Literal(s: string)
  {
    exists i, j, k :: 0 <= i < j < k < |s| && IsIPv4At(s, i, j, k)
  }

  predicate IsIPv4At(s: string, i: nat, j: nat, k: nat)
    requires i < j < k < |s|
  {
    && s[i] == '.' && s[j] == '.' && s[k] == '.'
    && IsOctet(s[..i]) && IsOctet(s[i + 1..j]) && IsOctet(s[j + 1..k]) && IsOctet(s[k + 1..])
  }

  /** A string with a character that is neither a digit nor a dot is no IPv4 literal. */
  lemma NotIPv4(s: string, n: nat)
    requires n < |s| && !IsDigit(s[n]) && s[n] != '.'
    ensures !IsIPv4Literal(s)
  {
  }

  /** A port number in 1..65535. */
  predicate IsValidPortNum(n: int)
  {
    0 < n <= 65535
  }

  /** A named port: 1 to 15 of `[-a-z0-9]`, neither starting nor ending with
      `-`, at least one letter, no `--`. */
  predicate IsValidPortName(s: string)
  {
    && 1 <= |s| <= 15
    && (forall i :: 0 <= i < |s| ==> IsLowerAlnum(s[i]) || s[i] == '-')
    && s[0] != '-' && s[|s| - 1] != '-'
    && (exists i :: 0 <= i < |s| && 'a' <= s[i] <= 'z')
    && !(exists i :: 0 <= i < |s| - 1 && s[i] == '-' && s[i + 1] == '-')
  }

  /** `n` copies of `c`, as Go's strings.Repeat builds them. */
  function Repeat(c: char, n: nat): (s: string)
    ensures |s| == n
    ensures forall i :: 0 <= i < n ==> s[i] == c
  {
    if n == 0 then [] else [c] + Repeat(c, n - 1)
  }

  /** One step of a left-to-right scan over neighbouring characters: both are
      lower-case letters, digits, `-` or `.`, and a dot is flanked by letters
      or digits. */
  predicate AllowedNeighbours(a: char, b: char)
  {
    && (IsLowerAlnum(a) || a == '-' || a == '.')
    && (IsLowerAlnum(b) || b == '-' || b == '.')
    && (a == '.' ==> IsLowerAlnum(b))
    && (b == '.' ==> IsLowerAlnum(a))
  }

  /** Every pair of neighbours from position `k` on passes the scan. */
  predicate NeighboursAllowedFrom(s: string, k: nat)
    decreases |s| - k
  {
    k + 1 >= |s| || (AllowedNeighbours(s[k], s[k + 1]) && NeighboursAllowedFrom(s, k + 1))
  }

  lemma {:induction false} NeighbourPairs(s: string, k: nat)
    requires NeighboursAllowedFrom(s, k)
    ensures forall i :: k <= i < |s| - 1 ==> AllowedNeighbours(s[i], s[i + 1])
    decreases |s| - k
  {
    if k + 1 < |s| {
      NeighbourPairs(s, k + 1);
    }
  }

  /** A name that starts and ends with a letter or digit and passes the
      neighbour scan is shaped like a subdomain; without a dot it is shaped
      like a label; and, being free of `/`, it is the name part of a
      qualified name when short enough. */
  lemma ScannedNameShapes(s: string)
    requires 1 <= |s| && IsLowerAlnum(s[0]) && IsLowerAlnum(s[|s| - 1])
    requires NeighboursAllowedFrom(s, 0)
    ensures SubdomainShaped(s)
    ensures '.' !in s ==> LabelShaped(s)
    ensures '/' !in s && (|s| <= QualifiedNameMaxLength ==> QualifiedNamePart(s))
  {
    NeighbourPairs(s, 0);
    forall i | 0 <= i < |s|
      ensures IsLowerAlnum(s[i]) || s[i] == '-' || s[i] == '.'
    {
      if i < |s| - 1 {
        assert AllowedNeighbours(s[i], s[i + 1]);
      }
    }
    forall i | 0 < i < |s| - 1 && s[i] == '.'
      ensures IsLowerAlnum(s[i - 1]) && IsLowerAlnum(s[i + 1])
    {
      assert AllowedNeighbours(s[i - 1], s[i]);
      assert AllowedNeighbours(s[i], s[i + 1]);
    }
  }

  /** Port names with a hyphen at either end are refused; inside, one is allowed. */
  lemma PortNameExamples()
    ensures !IsValidPortName("-http") && !IsValidPortName("http-")
    ensures IsValidPortName("h-1") && IsValidPortName("http")
  {
    assert IsLowerAlnum('h') && IsLowerAlnum('1');
    assert IsLowerAlnum('t') && IsLowerAlnum('p');
  }

  /** Name examples the validators accept. */
  lemma AcceptedNameExamples()
    ensures IsDNS1123Subdomain("abc") && IsDNS1123Subdomain("abc-123")
    ensures IsDNS1123Label("default")
    ensures IsQualifiedName("a") && IsQualifiedName("name") && IsQualifiedName("my-label")
  {
    AcceptedSubdomains();
    AcceptedLabel();
    AcceptedQualifiedNames();
  }

  lemma AcceptedSubdomains()
    ensures IsDNS1123Subdomain("abc") && IsDNS1123Subdomain("abc-123")
  {
    ScannedNameShapes("abc");
    ScannedNameShapes("abc-123");
  }

  lemma AcceptedLabel()
    ensures IsDNS1123Label("default")
  {
    ScannedNameShapes("default");
    assert '.' !in "default";
  }

  lemma AcceptedQualifiedNames()
    ensures IsQualifiedName("a") && IsQualifiedName("name") && IsQualifiedName("my-label")
  {
    ScannedNameShapes("a");
    ScannedNameShapes("name");
    ScannedNameShapes("my-label");
  }

  /** Name examples the validators refuse. */
  lemma RefusedNameExamples()
    ensures !IsDNS1123Subdomain("..") && !IsDNS1123Subdomain("defaultBackend")
    ensures !IsDNS1123Label("")
  {
    assert "defaultBackend"[7] == 'B';
  }

  /** One character outside letters, digits, `-`, `_`, `.` and `/` anywhere
      in a key makes it unqualified, whichever side of a slash it is on. */
  lemma NotQualifiedWith(s: string, n: nat)
    requires n < |s| && !IsAlnum(s[n]) && s[n] != '-' && s[n] != '_' && s[n] != '.' && s[n] != '/'
    ensures !IsQualifiedName(s)
  {
    if '/' in s {
      forall i | 0 <= i < |s| && s[i] == '/'
        ensures !QualifiedPrefixAndName(s, i)
      {
        if n < i {
          assert s[..i][n] == s[n];
        } else {
          assert s[i + 1..][n - i - 1] == s[n];
        }
      }
    }
  }

  /** Lower-casing keeps an `=`, so such an annotation key stays unqualified. */
  lemma NotQualifiedLower(s: string, n: nat)
    requires n < |s| && s[n] == '='
    ensures !IsQualifiedName(ToLower(s))
  {
    NotQualifiedWith(ToLower(s), n);
  }

  /** A key with two slashes is not a qualified name. */
  lemma TwoSlashKeyExample()
    ensures !IsQualifiedName("abc/def/ghi")
  {
    TwoSlashesNotQualified("abc/def/ghi", 3, 7);
  }

  /** `=` is allowed neither in a qualified name nor in a DNS name. */
  lemma EqualsSignExamples()
    ensures !IsQualifiedName("NoUppercaseOrSpecialCharsLike=Equals")
    ensures !IsDNS1123Subdomain("NoUppercaseOrSpecialCharsLike=Equals")
    ensures !IsDNS1123Label("NoUppercaseOrSpecialCharsLike=Equals")
  {
    var s := "NoUppercaseOrSpecialCharsLike=Equals";
    assert s[29] == '=';
    NotQualifiedWith(s, 29);
  }

  // Messages attached to Invalid errors.
  const DNS1123LabelErrorMsg := "must be a DNS label (at most 63 characters, matching regex [a-z0-9]([-a-z0-9]*[a-z0-9])?): e.g. \"my-name\""
  const DNS1123SubdomainErrorMsg := "must be a DNS subdomain (at most 253 characters, matching regex [a-z0-9]([-a-z0-9]*[a-z0-9])?(\\.[a-z0-9]([-a-z0-9]*[a-z0-9])?)*): e.g. \"example.com\""
  const QualifiedNameErrorMsg := "must match regex [a-z0-9A-Z]([-a-z0-9A-Z_.]*[a-z0-9A-Z])? with an optional DNS subdomain prefix and '/'"
  const LabelValueErrorMsg := "must have at most 63 characters, matching regex ([A-Za-z0-9][-A-Za-z0-9_.]*)?[A-Za-z0-9]"
  const PortRangeErrorMsg := "must be a valid port number (1-65535)"
  const PortNameErrorMsg := "must be an IANA_SVC_NAME (at most 15 characters, matching regex [a-z0-9]([a-z0-9-]*[a-z0-9])* and containing at least one letter)"
}
