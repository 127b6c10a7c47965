/** The shared-document record and its helper rules: ownership, access control by visibility,
    the human-readable file size, versioning, comments and recency. */
module DocumentModel {
  import opened KotlinNumbers
  import opened KotlinText
  import opened Time

  datatype FileType = PDF | DOCUMENT | SPREADSHEET | PRESENTATION | IMAGE | VIDEO | AUDIO | CODE | OTHER

  datatype DocumentCategory =
    | LECTURE_NOTES | ASSIGNMENT | STUDY_GUIDE | RESEARCH_PAPER | PROJECT | EXAM_PREP
    | REFERENCE_MATERIAL | OTHER

  /** PRIVATE: the owner only; SHARED: listed users and groups; PUBLIC: every user. */
  datatype Visibility = PRIVATE | SHARED | PUBLIC

  datatype Comment = Comment(id: string, userId: string, content: string, timestamp: Timestamp, likes: Int32)

  datatype Document = Document(
    id: string,
    title: string,
    description: string,
    fileName: string,
    fileUrl: string,
    fileType: FileType,
    fileSize: Int64,              // in bytes
    mimeType: string,
    courseId: string,
    studyGroupId: string,
    tags: seq<string>,
    category: DocumentCategory,
    userId: string,               // owner / uploader
    visibility: Visibility,
    sharedWithUserIds: seq<string>,
    sharedWithGroupIds: seq<string>,
    version: Int32,
    previousVersions: seq<string>,
    uploadDate: Timestamp,
    lastModified: Timestamp,
    lastAccessedDate: Option<Timestamp>,
    downloadCount: Int32,
    viewCount: Int32,
    likes: Int32,
    comments: seq<Comment>)

  const KIB: int := 1024
  const MIB: int := 1024 * 1024
  const GIB: int := 1024 * 1024 * 1024
  const SECONDS_PER_DAY: int := 24 * 60 * 60

  predicate IsOwnedBy(d: Document, userId: string)
  {
    d.userId == userId
  }

  /** Who may open a document. The owner always may; a SHARED document is open to the listed
      users and, as soon as any group is listed, to everybody (no group membership is looked at). */
  predicate CanBeAccessedBy(d: Document, userId: string)
  {
    if d.userId == userId then true
    else if d.visibility == PUBLIC then true
    else if d.visibility == SHARED then userId in d.sharedWithUserIds || |d.sharedWithGroupIds| > 0
    else false
  }

  /** The access rule, case by case. */
  lemma AccessRule(d: Document, userId: string)
    ensures IsOwnedBy(d, userId) ==> CanBeAccessedBy(d, userId)
    ensures d.visibility == PUBLIC ==> CanBeAccessedBy(d, userId)
    ensures d.visibility == SHARED && !IsOwnedBy(d, userId) ==>
      (CanBeAccessedBy(d, userId) <==> userId in d.sharedWithUserIds || d.sharedWithGroupIds != [])
    ensures d.visibility == PRIVATE && !IsOwnedBy(d, userId) ==> !CanBeAccessedBy(d, userId)
  {
  }

  /** Widening the visibility (PRIVATE, then SHARED, then PUBLIC) never takes access away. */
  lemma AccessMonotoneInVisibility(d: Document, userId: string)
    ensures CanBeAccessedBy(d.(visibility := PRIVATE), userId) ==> CanBeAccessedBy(d.(visibility := SHARED), userId)
    ensures CanBeAccessedBy(d.(visibility := SHARED), userId) ==> CanBeAccessedBy(d.(visibility := PUBLIC), userId)
  {
  }

  /** A SHARED document that lists a group is open to every user, listed or not. */
  lemma SharedWithAnyGroupIsOpenToAll(d: Document, userId: string)
    requires d.visibility == SHARED && d.sharedWithGroupIds != []
    ensures CanBeAccessedBy(d, userId)
  {
  }

  /** The file size as "<n> B", "<n> KB", "<n> MB" or "<n> GB"; `n` is the size divided by the
      unit and truncated. */
  function FormattedFileSize(d: Document): string
  {
    var size := d.fileSize;
    if size < KIB then LongToString(size) + " B"
    else if size < MIB then LongToString(TruncDiv(size, KIB)) + " KB"
    else if size < GIB then LongToString(TruncDiv(size, MIB)) + " MB"
    else LongToString(TruncDiv(size, GIB)) + " GB"
  }

  /** The size divided by the largest unit it reaches, rounded down, lies in 1..1023 for KiB
      and MiB and is at least 1 for GiB; that many units is at most the size, and one unit
      more exceeds it. */
  lemma FormattedFileSizeScale(d: Document)
    ensures KIB <= d.fileSize < MIB ==>
      var n := TruncDiv(d.fileSize, KIB); 1 <= n < 1024 && n * KIB <= d.fileSize < (n + 1) * KIB
    ensures MIB <= d.fileSize < GIB ==>
      var n := TruncDiv(d.fileSize, MIB); 1 <= n < 1024 && n * MIB <= d.fileSize < (n + 1) * MIB
    ensures GIB <= d.fileSize ==>
      var n := TruncDiv(d.fileSize, GIB); 1 <= n && n * GIB <= d.fileSize < (n + 1) * GIB
  {
    var size := d.fileSize as int;
    if KIB <= size < MIB {
      var n := TruncDiv(size, KIB);
      assert n * KIB <= size < n * KIB + KIB;
      assert n * KIB < 1024 * KIB;
    } else if MIB <= size < GIB {
      var n := TruncDiv(size, MIB);
      assert n * MIB <= size < n * MIB + MIB;
      assert n * MIB < 1024 * MIB;
    }
  }

  /** Sizes in different ranges give different texts: the unit suffix tells the range apart. */
  lemma FormattedFileSizeUnitDeterminesRange(d: Document)
    ensures |FormattedFileSize(d)| >= 3
    ensures var r := FormattedFileSize(d);
      (r[|r| - 3..] == " KB" <==> KIB <= d.fileSize < MIB)
      && (r[|r| - 3..] == " MB" <==> MIB <= d.fileSize < GIB)
      && (r[|r| - 3..] == " GB" <==> GIB <= d.fileSize)
  {
    var size := d.fileSize;
    var r := FormattedFileSize(d);
    if size < KIB {
      var digits := LongToString(size);
      assert r == digits + " B";
      assert r[|r| - 3..][1] == r[|r| - 2] == ' ';
    }
  }

  /** The number in the label: the size itself below 1 KiB, and otherwise the size in the
      largest unit it reaches, rounded down. Any `n` with `n` units <= size < `n + 1` units is
      that number, and it lies in 1..1023 before "KB" and "MB" and is at least 1 before "GB". */
  lemma ShowsFlooredQuotient(d: Document, n: Int64)
    ensures d.fileSize < KIB ==> FormattedFileSize(d) == LongToString(d.fileSize) + " B"
    ensures KIB <= d.fileSize < MIB && n * KIB <= d.fileSize < (n + 1) * KIB ==>
      1 <= n < 1024 && FormattedFileSize(d) == LongToString(n) + " KB"
    ensures MIB <= d.fileSize < GIB && n * MIB <= d.fileSize < (n + 1) * MIB ==>
      1 <= n < 1024 && FormattedFileSize(d) == LongToString(n) + " MB"
    ensures GIB <= d.fileSize && n * GIB <= d.fileSize < (n + 1) * GIB ==>
      1 <= n && FormattedFileSize(d) == LongToString(n) + " GB"
  {
    var size := d.fileSize as int;
    if KIB <= size < MIB && n * KIB <= size < (n + 1) * KIB {
      FormattedFileSizeScale(d);
      TruncDivUnique(size, KIB, n);
    } else if MIB <= size < GIB && n * MIB <= size < (n + 1) * MIB {
      FormattedFileSizeScale(d);
      TruncDivUnique(size, MIB, n);
    } else if GIB <= size && n * GIB <= size < (n + 1) * GIB {
      FormattedFileSizeScale(d);
      TruncDivUnique(size, GIB, n);
    }
  }

  /** Two sizes with the same label lie in the same unit's range. */
  lemma SameLabelSameUnit(d: Document, e: Document)
    requires FormattedFileSize(d) == FormattedFileSize(e)
    ensures d.fileSize < KIB <==> e.fileSize < KIB
    ensures KIB <= d.fileSize < MIB <==> KIB <= e.fileSize < MIB
    ensures MIB <= d.fileSize < GIB <==> MIB <= e.fileSize < GIB
    ensures GIB <= d.fileSize <==> GIB <= e.fileSize
  {
    FormattedFileSizeUnitDeterminesRange(d);
    FormattedFileSizeUnitDeterminesRange(e);
  }

  /** The label loses only what the rounding loses: two sizes with the same label lie in the
      same unit's range and show the same number of that unit, and below 1 KiB they are equal. */
  lemma SameLabelSameRounding(d: Document, e: Document)
    requires FormattedFileSize(d) == FormattedFileSize(e)
    ensures d.fileSize < KIB <==> e.fileSize < KIB
    ensures d.fileSize < KIB ==> d.fileSize == e.fileSize
    ensures KIB <= d.fileSize < MIB ==> KIB <= e.fileSize < MIB && TruncDiv(d.fileSize, KIB) == TruncDiv(e.fileSize, KIB)
    ensures MIB <= d.fileSize < GIB ==> MIB <= e.fileSize < GIB && TruncDiv(d.fileSize, MIB) == TruncDiv(e.fileSize, MIB)
    ensures GIB <= d.fileSize ==> GIB <= e.fileSize && TruncDiv(d.fileSize, GIB) == TruncDiv(e.fileSize, GIB)
  {
    SameLabelSameUnit(d, e);
    FormattedFileSizeScale(d);
    FormattedFileSizeScale(e);
    var x, y := d.fileSize, e.fileSize;
    if x < KIB {
      LongToStringWithSuffixInjective(x, y, " B");
    } else if x < MIB {
      LongToStringWithSuffixInjective(TruncDiv(x, KIB), TruncDiv(y, KIB), " KB");
    } else if x < GIB {
      LongToStringWithSuffixInjective(TruncDiv(x, MIB), TruncDiv(y, MIB), " MB");
    } else {
      LongToStringWithSuffixInjective(TruncDiv(x, GIB), TruncDiv(y, GIB), " GB");
    }
  }

  predicate IsVersioned(d: Document)
  {
    d.version > 1 || |d.previousVersions| > 0
  }

  predicate HasComments(d: Document)
  {
    |d.comments| > 0
  }

  /** A document with the record's defaults for these fields (version 1, no previous
      versions, no comments) is neither versioned nor commented; so is one with a lower
      version and likewise no history or comments. */
  lemma DefaultsUnversioned(d: Document)
    requires d.version <= 1 && d.previousVersions == [] && d.comments == []
    ensures !IsVersioned(d) && !HasComments(d)
  {
  }

  /** Recording a previous version, or raising the version above 1, makes a document
      versioned; neither ever makes a versioned document unversioned. */
  lemma NewVersionIsVersioned(d: Document, previousId: string, version: Int32)
    ensures IsVersioned(d.(previousVersions := d.previousVersions + [previousId]))
    ensures version > 1 ==> IsVersioned(d.(version := version))
    ensures IsVersioned(d) && version >= d.version ==> IsVersioned(d.(version := version))
  {
  }

  /** Adding a comment makes a document commented, and versioning does not depend on it. */
  lemma NewCommentIsCommented(d: Document, c: Comment)
    ensures HasComments(d.(comments := d.comments + [c]))
    ensures IsVersioned(d.(comments := d.comments + [c])) == IsVersioned(d)
  {
  }

  /** Only the version number and the history decide versioning: a document with at least the
      version and at least as long a history as a versioned one is versioned too. */
  lemma VersionedMonotone(d: Document, e: Document)
    requires e.version >= d.version && |e.previousVersions| >= |d.previousVersions|
    ensures IsVersioned(d) ==> IsVersioned(e)
  {
  }

  /** The whole days between the upload and `now`, truncated toward zero. Only whole seconds
      are compared; the nanosecond parts are ignored. */
  function DaysSinceUpload(d: Document, now: Timestamp): (days: Int64)
  {
    TruncDiv(now.seconds - d.uploadDate.seconds, SECONDS_PER_DAY)
  }

  /** `isRecent(daysThreshold)`, with the clock reading `now` passed in. */
  predicate IsRecent(d: Document, now: Timestamp, daysThreshold: Int32)
  {
    DaysSinceUpload(d, now) <= daysThreshold
  }

  /** The seconds difference cannot overflow a Long, because timestamps are bounded. */
  lemma UploadDifferenceFitsInLong(d: Document, now: Timestamp)
    ensures LONG_MIN <= now.seconds - d.uploadDate.seconds <= LONG_MAX
  {
  }

  /** For an upload in the past, recent means uploaded less than `daysThreshold + 1` whole days
      ago; an upload dated in the future counts as recent for every non-negative threshold. */
  lemma IsRecentMeaning(d: Document, now: Timestamp, daysThreshold: Int32)
    ensures d.uploadDate.seconds <= now.seconds ==>
      (IsRecent(d, now, daysThreshold) <==>
        now.seconds - d.uploadDate.seconds < (daysThreshold + 1) * SECONDS_PER_DAY)
    ensures now.seconds < d.uploadDate.seconds && daysThreshold >= 0 ==> IsRecent(d, now, daysThreshold)
  {
    var diff := now.seconds - d.uploadDate.seconds;
    var q := TruncDiv(diff, SECONDS_PER_DAY);
    if diff >= 0 {
      assert q * SECONDS_PER_DAY <= diff < q * SECONDS_PER_DAY + SECONDS_PER_DAY;
      if q <= daysThreshold {
        assert q * SECONDS_PER_DAY + SECONDS_PER_DAY <= (daysThreshold + 1) * SECONDS_PER_DAY;
      } else {
        assert (daysThreshold + 1) * SECONDS_PER_DAY <= q * SECONDS_PER_DAY;
      }
    } else {
      assert -SECONDS_PER_DAY < diff - q * SECONDS_PER_DAY <= 0;
      assert q <= 0;
    }
  }
}
