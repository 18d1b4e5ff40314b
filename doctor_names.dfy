/** The display name of a referring doctor (`formatDoctorName` in
    src/app/api/cliniko/referrals/route.ts). A contact field counts only when it
    is present and non-empty, as JavaScript truthiness has it. */
module DoctorNames {
  import opened Wrappers

  /** A contact record as the API returns it; every field may be missing. */
  datatype Contact = Contact(firstName: Option<string>, lastName: Option<string>, companyName: Option<string>)

  /** JavaScript truthiness of an optional string: absent and "" are falsy. */
  predicate Truthy(field: Option<string>) {
    field.Some? && field.value != ""
  }

  /** `.filter(Boolean)` on a list of optional strings. */
  function KeepTruthy(fields: seq<Option<string>>): (kept: seq<string>)
    ensures |kept| <= |fields|
    ensures forall i :: 0 <= i < |kept| ==> kept[i] != ""
    ensures kept == [] <==> forall i :: 0 <= i < |fields| ==> !Truthy(fields[i])
  {
    if fields == [] then []
    else (if Truthy(fields[0]) then [fields[0].value] else []) + KeepTruthy(fields[1..])
  }

  /** `.join(separator)`. */
  function Join(parts: seq<string>, separator: string): (joined: string)
    ensures parts != [] ==> parts[0] <= joined
  {
    if parts == [] then ""
    else if |parts| == 1 then parts[0]
    else parts[0] + separator + Join(parts[1..], separator)
  }

  lemma KeepTruthyPair(a: Option<string>, b: Option<string>)
    ensures KeepTruthy([a, b]) == (if Truthy(a) then [a.value] else []) + (if Truthy(b) then [b.value] else [])
  {
    assert [a, b][1..] == [b];
    assert [b][1..] == [];
  }

  lemma JoinPair(x: string, y: string, separator: string)
    ensures Join([x, y], separator) == x + separator + y
  {
    assert [x, y][1..] == [y];
  }

  /** The first and last names that are present, joined by one space. */
  function PersonalName(c: Contact): (name: string)
    ensures Truthy(c.firstName) || Truthy(c.lastName) ==> name != ""
  {
    KeepTruthyPair(c.firstName, c.lastName);
    Join(KeepTruthy([c.firstName, c.lastName]), " ")
  }

  /** The list `nameParts` that formatDoctorName builds: at most a personal
      part and a company part, none of them empty, and none at all exactly
      when every field is falsy. */
  function NameParts(c: Contact): (parts: seq<string>)
    ensures |parts| <= 2
    ensures forall i :: 0 <= i < |parts| ==> parts[i] != ""
    ensures parts == [] <==> !Truthy(c.firstName) && !Truthy(c.lastName) && !Truthy(c.companyName)
  {
    var personal := if Truthy(c.firstName) || Truthy(c.lastName) then [PersonalName(c)] else [];
    if Truthy(c.companyName) then
      personal + [if |personal| > 0 then "(" + c.companyName.value + ")" else c.companyName.value]
    else personal
  }

  /** The display name of a contact, or None when it has none. A name that is
      given is never empty, so the caller's truthiness test on it only
      distinguishes None. */
  function FormatDoctorName(c: Contact): (name: Option<string>)
    ensures name.Some? ==> name.value != ""
    ensures name.None? <==> !Truthy(c.firstName) && !Truthy(c.lastName) && !Truthy(c.companyName)
  {
    var parts := NameParts(c);
    if |parts| > 0 then Some(Join(parts, " ")) else None
  }

  /** The personal part: "first last", or whichever of the two is present. */
  lemma PersonalNameForms(c: Contact)
    ensures Truthy(c.firstName) && Truthy(c.lastName) ==>
              PersonalName(c) == c.firstName.value + " " + c.lastName.value
    ensures Truthy(c.firstName) && !Truthy(c.lastName) ==> PersonalName(c) == c.firstName.value
    ensures !Truthy(c.firstName) && Truthy(c.lastName) ==> PersonalName(c) == c.lastName.value
  {
    KeepTruthyPair(c.firstName, c.lastName);
    if Truthy(c.firstName) && Truthy(c.lastName) {
      JoinPair(c.firstName.value, c.lastName.value, " ");
    }
  }

  /** Only a personal name: that name alone. */
  lemma PersonalNameOnly(c: Contact)
    requires Truthy(c.firstName) || Truthy(c.lastName)
    requires !Truthy(c.companyName)
    ensures FormatDoctorName(c) == Some(PersonalName(c))
  {
  }

  /** A personal name and a company: "personal (company)". */
  lemma PersonalNameWithCompany(c: Contact)
    requires Truthy(c.firstName) || Truthy(c.lastName)
    requires Truthy(c.companyName)
    ensures FormatDoctorName(c) == Some(PersonalName(c) + " (" + c.companyName.value + ")")
  {
    var parts := [PersonalName(c), "(" + c.companyName.value + ")"];
    assert NameParts(c) == parts;
    JoinPair(parts[0], parts[1], " ");
    assert parts[0] + " " + parts[1] == PersonalName(c) + " (" + c.companyName.value + ")";
  }

  /** Only a company: the company name alone. */
  lemma CompanyOnly(c: Contact)
    requires !Truthy(c.firstName) && !Truthy(c.lastName)
    requires Truthy(c.companyName)
    ensures FormatDoctorName(c) == Some(c.companyName.value)
  {
  }

  lemma PersonalNameExample()
    ensures FormatDoctorName(Contact(Some("Jane"), Some("Doe"), None)) == Some("Jane Doe")
  {
    var c := Contact(Some("Jane"), Some("Doe"), None);
    PersonalNameForms(c);
    PersonalNameOnly(c);
    assert "Jane" + " " + "Doe" == "Jane Doe";
  }

  lemma CompanyOnlyExample()
    ensures FormatDoctorName(Contact(None, None, Some("Acme Clinic"))) == Some("Acme Clinic")
  {
    CompanyOnly(Contact(None, None, Some("Acme Clinic")));
  }

  lemma NameWithCompanyExample()
    ensures FormatDoctorName(Contact(Some("Jo"), Some("Li"), Some("Acme"))) == Some("Jo Li (Acme)")
  {
    var c := Contact(Some("Jo"), Some("Li"), Some("Acme"));
    PersonalNameForms(c);
    assert PersonalName(c) == "Jo Li";
    PersonalNameWithCompany(c);
    assert "Jo Li" + " (" + "Acme" + ")" == "Jo Li (Acme)";
  }

  lemma NoNameExample()
    ensures FormatDoctorName(Contact(Some(""), None, Some(""))) == None
  {
  }
}
