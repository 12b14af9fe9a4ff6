/**
 * The pure part of the v1.0.5 table and HTML displays: the subject and the
 * company name are cut to a fixed width with a trailing "...", and the
 * company name is looked up by department with "Unknown" as the fallback.
 */
module Display {

  const Ellipsis := "..."
  const SubjectWidth := 50
  const CompanyWidth := 30
  const UnknownCompany := "Unknown"

  /**
   * `(s[:width - 3] + '...') if len(s) > width else s`: a text that fits is
   * shown as it is; a longer one keeps its first `width - 3` characters and
   * ends in "...", exactly `width` characters in all.
   */
  function Shorten(s: string, width: nat): (r: string)
    requires 3 <= width
    ensures |r| <= width
    ensures |s| <= width ==> r == s
    ensures |s| > width ==> |r| == width && r[..width - 3] == s[..width - 3] && r[width - 3..] == Ellipsis
  {
    if |s| > width then s[..width - 3] + Ellipsis else s
  }

  /** `subject_truncated`: at most 50 characters, the first 47 kept when cut. */
  function SubjectCell(subject: string): (r: string)
    ensures |r| <= SubjectWidth
    ensures |subject| <= SubjectWidth ==> r == subject
    ensures |subject| > SubjectWidth ==> |r| == 50 && r == subject[..47] + Ellipsis
  {
    Shorten(subject, SubjectWidth)
  }

  /** `company_names.get(department_id, 'Unknown')`. */
  function CompanyName(names: map<int, string>, departmentId: int): (r: string)
    ensures departmentId in names ==> r == names[departmentId]
    ensures departmentId !in names ==> r == UnknownCompany
  {
    if departmentId in names then names[departmentId] else UnknownCompany
  }

  /** `company_name_truncated`: at most 30 characters, the first 27 kept when cut. */
  function CompanyCell(names: map<int, string>, departmentId: int): (r: string)
    ensures |r| <= CompanyWidth
    ensures departmentId !in names ==> r == UnknownCompany
    ensures departmentId in names && |names[departmentId]| > CompanyWidth
        ==> r == names[departmentId][..27] + Ellipsis
    ensures departmentId in names && |names[departmentId]| <= CompanyWidth ==> r == names[departmentId]
  {
    Shorten(CompanyName(names, departmentId), CompanyWidth)
  }

  /** Cutting a cut text again changes nothing. */
  lemma ShortenIdempotent(s: string, width: nat)
    requires 3 <= width
    ensures Shorten(Shorten(s, width), width) == Shorten(s, width)
  {
  }

  /**
   * When two texts show the same: they are equal, or both are cut and share
   * their first `width - 3` characters, or one fits and reads exactly like
   * the other one cut.
   */
  lemma ShortenCollisions(s: string, t: string, width: nat)
    requires 3 <= width
    ensures Shorten(s, width) == Shorten(t, width)
        <==> (s == t
              || (|s| > width && |t| > width && s[..width - 3] == t[..width - 3])
              || (|s| <= width < |t| && s == t[..width - 3] + Ellipsis)
              || (|t| <= width < |s| && t == s[..width - 3] + Ellipsis))
  {
    var a, b := Shorten(s, width), Shorten(t, width);
    if a == b && |s| > width && |t| > width {
      assert s[..width - 3] == a[..width - 3] == b[..width - 3] == t[..width - 3];
    }
  }

  /**
   * The subject column is lossy: every subject longer than 50 characters
   * shows exactly like some other subject (the same one with its last
   * character changed).
   */
  lemma LongSubjectHasTwin(s: string) returns (t: string)
    requires |s| > SubjectWidth
    ensures t != s && |t| == |s| && SubjectCell(t) == SubjectCell(s)
  {
    var c := if s[|s| - 1] == 'x' then 'y' else 'x';
    t := s[..|s| - 1] + [c];
    assert t[|s| - 1] != s[|s| - 1];
    assert t[..47] == s[..47];
  }
}
