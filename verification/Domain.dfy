/** The SCIM entities that travel between the mock server and the connector. */
module Domain {
  import opened Text

  const OWNER := "owner"
  const MEMBERSHIP_ADMIN := "membership_admin"
  const MEMBER := "member"
  const RESTRICTED_MEMBER := "restricted_member"

  const SCHEMA_USER_CORE := "urn:ietf:params:scim:schemas:core:2.0:User"
  const SCHEMA_NOTION_USER := "urn:ietf:params:scim:schemas:extension:notion:2.0:User"

  predicate KnownRole(role: string) {
    role == OWNER || role == MEMBERSHIP_ADMIN || role == MEMBER || role == RESTRICTED_MEMBER
  }

  datatype Name = Name(given: string, family: string, formatted: string)

  datatype Email = Email(primary: bool, value: string, kind: string)

  /** `ext` is the Notion role extension: None when the object is absent. */
  datatype User = User(
    schemas: seq<string>,
    id: string,
    userName: string,
    name: Name,
    emails: seq<Email>,
    active: bool,
    ext: Option<string>)
  {
    function Role(): string {
      if ext.Some? then ext.value else ""
    }
  }

  /** A member is kept as the user ID in its `value` field. */
  datatype Group = Group(id: string, displayName: string, members: seq<string>)

  datatype StoreState = StoreState(users: map<string, User>, groups: map<string, Group>)

  /** The character fold behind strings.EqualFold: a representative of each class of characters
      that differ only by case. The server needs of it only that printable ASCII other than the
      capital letters stands for itself. */
  type CaseFold = f: char -> char |
    forall c :: ' ' <= c <= '~' && !('A' <= c <= 'Z') ==> f(c) == c
    witness (c: char) => c

  predicate EqualFold(fold: CaseFold, a: string, b: string) {
    |a| == |b| && forall i :: 0 <= i < |a| ==> fold(a[i]) == fold(b[i])
  }

  function Folded(fold: CaseFold, s: string): string {
    seq(|s|, i requires 0 <= i < |s| => fold(s[i]))
  }

  /** Equal under the fold means: the same text once every character is folded. */
  lemma EqualFoldMeans(fold: CaseFold, a: string, b: string)
    ensures EqualFold(fold, a, b) <==> Folded(fold, a) == Folded(fold, b)
  {
    if Folded(fold, a) == Folded(fold, b) {
      forall i | 0 <= i < |a| ensures fold(a[i]) == fold(b[i]) {
        assert Folded(fold, a)[i] == Folded(fold, b)[i];
      }
    }
  }
}
