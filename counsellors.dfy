/**
 * The counsellor directory (controllers/counsellorController.js): each
 * counsellor profile with its missing fields filled in, and the profiles
 * grouped into overlapping categories by keywords of their specializations.
 */
module Counsellors {
  import opened Common
  import opened Seqs

  /** A profile as the directory returns it; `id` and `docId` (`_id`) both carry the record id. */
  datatype Profile = Profile(
    id: ObjectId,
    docId: ObjectId,
    name: string,
    email: string,
    phone: string,
    specialization: seq<string>,
    languages: seq<string>,
    availableDays: seq<string>,
    availableHours: string,
    location: string,
    campus: string)

  const DefaultSpecialization: seq<string> := ["General Counseling"]
  const DefaultLanguages: seq<string> := ["English"]
  const DefaultDays: seq<string> := ["Monday", "Tuesday", "Wednesday", "Thursday", "Friday"]
  const DefaultHours: string := "9:00 AM - 5:00 PM"
  const DefaultLocation: string := "Student Counseling Center"

  /** `field || fallback` on an array field: only an absent array takes the fallback. */
  function ListOr(field: Option<seq<string>>, fallback: seq<string>): (r: seq<string>)
    ensures field.Some? ==> r == field.value
    ensures field.None? ==> r == fallback
  {
    if field.Some? then field.value else fallback
  }

  /** `field || fallback` on a string field: only an absent (empty) string takes the fallback. */
  function TextOr(field: string, fallback: string): (r: string)
    ensures field != "" ==> r == field
    ensures field == "" ==> r == fallback
  {
    if field != "" then field else fallback
  }

  /** The profile of a counsellor record, with every missing field defaulted. */
  function Format(u: User): (c: Profile)
    ensures c.id == u.id && c.docId == u.id
    ensures c.name == u.name && c.email == u.email && c.phone == u.phone
    ensures c.specialization == ListOr(u.specialization, DefaultSpecialization)
    ensures c.languages == ListOr(u.languages, DefaultLanguages)
    ensures c.availableDays == ListOr(u.availableDays, DefaultDays)
    ensures c.availableHours == TextOr(u.availableHours, DefaultHours) && c.availableHours != ""
    ensures c.location == TextOr(u.location, DefaultLocation) && c.location != ""
    ensures c.campus == CampusOf(u)
  {
    Profile(
      u.id, u.id, u.name, u.email, u.phone,
      ListOr(u.specialization, DefaultSpecialization),
      ListOr(u.languages, DefaultLanguages),
      ListOr(u.availableDays, DefaultDays),
      TextOr(u.availableHours, DefaultHours),
      TextOr(u.location, DefaultLocation),
      CampusOf(u))
  }

  // ---- Categories ----

  /** `s.includes(k)`: `k` occurs in `s` as a contiguous substring. */
  predicate Contains(s: string, k: string) {
    exists i :: 0 <= i <= |s| && OccursAt(s, k, i)
  }

  /** `k` occurs in `s` starting at index `i`. */
  predicate OccursAt(s: string, k: string, i: nat) {
    i + |k| <= |s| && s[i..i + |k|] == k
  }

  /** Some specialization contains some keyword. */
  predicate Mentions(specialization: seq<string>, keywords: seq<string>) {
    exists i, j :: 0 <= i < |specialization| && 0 <= j < |keywords| && Contains(specialization[i], keywords[j])
  }

  const AnxietyKeywords: seq<string> := ["Anxiety"]
  const DepressionKeywords: seq<string> := ["Depression", "Crisis"]
  const AcademicKeywords: seq<string> := ["Academic", "Study", "Exam"]
  const PeerKeywords: seq<string> := ["Peer", "Social", "Homesickness"]
  /** The nine keywords whose absence puts a counsellor under General. */
  const AllKeywords: seq<string> :=
    ["Anxiety", "Depression", "Academic", "Peer", "Crisis", "Study", "Exam", "Social", "Homesickness"]

  predicate InNamedCategory(c: Profile) {
    || Mentions(c.specialization, AnxietyKeywords)
    || Mentions(c.specialization, DepressionKeywords)
    || Mentions(c.specialization, AcademicKeywords)
    || Mentions(c.specialization, PeerKeywords)
  }

  predicate IsGeneral(c: Profile) {
    !Mentions(c.specialization, AllKeywords)
  }

  datatype Categories = Categories(
    anxiety: seq<Profile>,
    depression: seq<Profile>,
    academic: seq<Profile>,
    peer: seq<Profile>,
    general: seq<Profile>)

  datatype Directory = Directory(all: seq<Profile>, categories: Categories)

  function FormatAll(us: seq<User>): (cs: seq<Profile>)
    ensures |cs| == |us|
    ensures forall i :: 0 <= i < |us| ==> cs[i] == Format(us[i])
  {
    seq(|us|, i requires 0 <= i < |us| => Format(us[i]))
  }

  /**
   * `listCounsellors`: every counsellor record formatted, in collection
   * order, and each named category holding exactly the profiles that
   * mention one of its keywords. General is the complement of the four
   * named categories, so every profile is in at least one category.
   */
  function ListCounsellors(users: seq<User>): (d: Directory)
    ensures d.all == FormatAll(Filter(users, IsCounsellorRecord))
    ensures forall c :: c in d.categories.anxiety <==> c in d.all && Mentions(c.specialization, AnxietyKeywords)
    ensures forall c :: c in d.categories.depression <==> c in d.all && Mentions(c.specialization, DepressionKeywords)
    ensures forall c :: c in d.categories.academic <==> c in d.all && Mentions(c.specialization, AcademicKeywords)
    ensures forall c :: c in d.categories.peer <==> c in d.all && Mentions(c.specialization, PeerKeywords)
    ensures forall c :: c in d.categories.general <==> c in d.all && !InNamedCategory(c)
    ensures forall c :: c in d.all ==>
      c in d.categories.anxiety || c in d.categories.depression || c in d.categories.academic
      || c in d.categories.peer || c in d.categories.general
  {
    var all := FormatAll(Filter(users, IsCounsellorRecord));
    forall c: Profile ensures IsGeneral(c) <==> !InNamedCategory(c) {
      GeneralIsComplement(c);
    }
    Directory(all, Categories(
      Filter(all, (c: Profile) => Mentions(c.specialization, AnxietyKeywords)),
      Filter(all, (c: Profile) => Mentions(c.specialization, DepressionKeywords)),
      Filter(all, (c: Profile) => Mentions(c.specialization, AcademicKeywords)),
      Filter(all, (c: Profile) => Mentions(c.specialization, PeerKeywords)),
      Filter(all, IsGeneral)))
  }

  /** Mentioning a keyword of `small` is mentioning a keyword of `large` when every keyword of `small` is in `large`. */
  lemma {:induction false} MentionsMonotone(specialization: seq<string>, small: seq<string>, large: seq<string>)
    requires forall k :: k in small ==> k in large
    requires Mentions(specialization, small)
    ensures Mentions(specialization, large)
  {
    var i, j :| 0 <= i < |specialization| && 0 <= j < |small| && Contains(specialization[i], small[j]);
    assert small[j] in large;
    var j' :| 0 <= j' < |large| && large[j'] == small[j];
    assert Contains(specialization[i], large[j']);
  }

  /** The nine keywords are exactly those of the four named categories, so General is their complement. */
  lemma GeneralIsComplement(c: Profile)
    ensures IsGeneral(c) <==> !InNamedCategory(c)
  {
    var spec := c.specialization;
    var union := AnxietyKeywords + DepressionKeywords + AcademicKeywords + PeerKeywords;
    if Mentions(spec, AllKeywords) {
      MentionsMonotone(spec, AllKeywords, union);
      var i, j :| 0 <= i < |spec| && 0 <= j < |union| && Contains(spec[i], union[j]);
      if j < 1 {
        assert Contains(spec[i], AnxietyKeywords[j]);
      } else if j < 3 {
        assert Contains(spec[i], DepressionKeywords[j - 1]);
      } else if j < 6 {
        assert Contains(spec[i], AcademicKeywords[j - 3]);
      } else {
        assert Contains(spec[i], PeerKeywords[j - 6]);
      }
    }
    if Mentions(spec, AnxietyKeywords) { MentionsMonotone(spec, AnxietyKeywords, AllKeywords); }
    if Mentions(spec, DepressionKeywords) { MentionsMonotone(spec, DepressionKeywords, AllKeywords); }
    if Mentions(spec, AcademicKeywords) { MentionsMonotone(spec, AcademicKeywords, AllKeywords); }
    if Mentions(spec, PeerKeywords) { MentionsMonotone(spec, PeerKeywords, AllKeywords); }
  }

  /** Every category lists its counsellors in the order of the full list. */
  lemma CategoriesKeepOrder(users: seq<User>)
    ensures var d := ListCounsellors(users);
      && IsSubsequence(d.categories.anxiety, d.all)
      && IsSubsequence(d.categories.depression, d.all)
      && IsSubsequence(d.categories.academic, d.all)
      && IsSubsequence(d.categories.peer, d.all)
      && IsSubsequence(d.categories.general, d.all)
  {
    var all := ListCounsellors(users).all;
    FilterIsSubsequence(all, (c: Profile) => Mentions(c.specialization, AnxietyKeywords));
    FilterIsSubsequence(all, (c: Profile) => Mentions(c.specialization, DepressionKeywords));
    FilterIsSubsequence(all, (c: Profile) => Mentions(c.specialization, AcademicKeywords));
    FilterIsSubsequence(all, (c: Profile) => Mentions(c.specialization, PeerKeywords));
    FilterIsSubsequence(all, IsGeneral);
  }

  /** A keyword whose first letter does not occur in `s` does not occur in `s`. */
  lemma NotContainedByHead(s: string, k: string)
    requires |k| > 0 && k[0] !in s
    ensures !Contains(s, k)
  {
    forall i: nat ensures !OccursAt(s, k, i) {
      if i + |k| <= |s| {
        assert s[i..i + |k|][0] == s[i] && s[i] in s;
      }
    }
  }

  /** "Crisis" does not occur in "General Counseling": its one capital C is followed by an o. */
  lemma CrisisNotInDefault()
    ensures !Contains(DefaultSpecialization[0], "Crisis")
  {
    var a, b := "General ", "Counseling";
    var s := a + b;
    assert s == DefaultSpecialization[0];
    forall i: nat ensures !OccursAt(s, "Crisis", i) {
      if i + 6 <= |s| {
        assert s[i..i + 6][0] == s[i] && s[i..i + 6][1] == s[i + 1];
        if i < |a| {
          assert s[i] == a[i] && a[i] in a;
        } else if i == |a| {
          assert s[i + 1] == 'o';
        } else {
          assert s[i] == b[1..][i - |a| - 1] && b[1..][i - |a| - 1] in b[1..];
        }
      }
    }
  }

  /** The default specialization mentions none of the nine keywords. */
  lemma DefaultSpecializationIsGeneral()
    ensures !Mentions(DefaultSpecialization, AllKeywords)
  {
    var s := DefaultSpecialization[0];
    forall j | 0 <= j < |AllKeywords| ensures !Contains(s, AllKeywords[j]) {
      if AllKeywords[j] == "Crisis" {
        CrisisNotInDefault();
      } else {
        NotContainedByHead(s, AllKeywords[j]);
      }
    }
  }

  /** A counsellor without specializations (absent, or stored as an empty array) is listed under General. */
  lemma NoSpecializationIsGeneral(u: User)
    requires u.specialization.None? || u.specialization == Some([])
    ensures IsGeneral(Format(u)) && !InNamedCategory(Format(u))
  {
    DefaultSpecializationIsGeneral();
    GeneralIsComplement(Format(u));
  }
}
