/** The version label both providers stamp into their output as `sdl_version`. The target
    platform turns it into a Kubernetes label, so it may hold only ASCII letters, digits, `.`
    and `-`, and at most 63 characters. */
module Version {

  const MaxLabelLength := 63

  predicate LabelChar(c: char) {
    'a' <= c <= 'z' || 'A' <= c <= 'Z' || '0' <= c <= '9' || c == '.' || c == '-'
  }

  predicate IsLabel(s: string) {
    |s| <= MaxLabelLength && forall i :: 0 <= i < |s| ==> LabelChar(s[i])
  }

  /** `gsub!(/[^a-zA-Z0-9.-]/, '-')`: every other character becomes a dash. */
  function ReplaceDisallowed(s: string): (r: string)
    ensures |r| == |s|
    ensures forall i :: 0 <= i < |r| ==> LabelChar(r[i])
    ensures forall i :: 0 <= i < |s| ==> (LabelChar(s[i]) <==> r[i] == s[i])
  {
    seq(|s|, i requires 0 <= i < |s| => if LabelChar(s[i]) then s[i] else '-')
  }

  /** The replacement followed by `slice(0, 63)`. */
  function Sanitise(version: string): (r: string)
    ensures IsLabel(r)
    ensures |r| == if |version| <= MaxLabelLength then |version| else MaxLabelLength
    ensures forall i :: 0 <= i < |r| ==> r[i] == if LabelChar(version[i]) then version[i] else '-'
  {
    var s := ReplaceDisallowed(version);
    if |s| <= MaxLabelLength then s else s[..MaxLabelLength]
  }

  /** Truncating first and replacing afterwards gives the same label. */
  lemma SanitiseIsReplaceOfPrefix(version: string)
    ensures Sanitise(version) == ReplaceDisallowed(version[..if |version| <= MaxLabelLength then |version| else MaxLabelLength])
  {
  }

  /** A label is left as it is, so sanitising twice is sanitising once. */
  lemma SanitiseIdempotent(version: string)
    ensures Sanitise(Sanitise(version)) == Sanitise(version)
  {
    var r := Sanitise(version);
    assert Sanitise(r) == r;
  }

  /** A version that already is a label passes through unchanged. */
  lemma SanitiseKeepsLabels(version: string)
    requires IsLabel(version)
    ensures Sanitise(version) == version
  {
  }
}
