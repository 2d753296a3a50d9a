/** A receiving-side reading of the Glacier URI templates: split a URI into '/'-separated segments
    and recover the operation and its path parameters. It is the partner that shows the templates
    together with the HTTP method identify the operation unambiguously. */
module GlacierRouting {
  import opened Wrappers
  import opened Glacier

  /** `s` split at every '/'; there is always at least one (possibly empty) segment. */
  function Split(s: string): (segs: seq<string>)
    ensures |segs| >= 1
  {
    if |s| == 0 then [""]
    else if s[0] == '/' then [""] + Split(s[1..])
    else
      var rest := Split(s[1..]);
      [[s[0]] + rest[0]] + rest[1..]
  }

  /** The segments joined with '/'. */
  function Join(segs: seq<string>): string
    requires |segs| >= 1
  {
    if |segs| == 1 then segs[0] else segs[0] + "/" + Join(segs[1..])
  }

  predicate SlashFree(s: string) {
    forall i :: 0 <= i < |s| ==> s[i] != '/'
  }

  lemma {:induction false} SplitSlashFree(a: string)
    requires SlashFree(a)
    ensures Split(a) == [a]
  {
    if |a| > 0 {
      SplitSlashFree(a[1..]);
      assert [a[0]] + a[1..] == a;
    }
  }

  lemma {:induction false} SplitAtFirstSlash(a: string, t: string)
    requires SlashFree(a)
    ensures Split(a + "/" + t) == [a] + Split(t)
  {
    var s := a + "/" + t;
    if |a| == 0 {
      assert s == "/" + t;
      assert s[1..] == t;
    } else {
      assert s[1..] == a[1..] + "/" + t;
      SplitAtFirstSlash(a[1..], t);
      assert [a[0]] + a[1..] == a;
    }
  }

  /** Splitting undoes joining, provided no segment contains '/'. */
  lemma {:induction false} SplitJoin(segs: seq<string>)
    requires |segs| >= 1
    requires forall k :: 0 <= k < |segs| ==> SlashFree(segs[k])
    ensures Split(Join(segs)) == segs
  {
    if |segs| == 1 {
      SplitSlashFree(segs[0]);
    } else {
      SplitJoin(segs[1..]);
      SplitAtFirstSlash(segs[0], Join(segs[1..]));
      assert [segs[0]] + segs[1..] == segs;
    }
  }

  /** The segments after "base/" of an operation's URI. */
  function Segments(op: Operation): (segs: seq<string>)
    ensures |segs| >= 2
  {
    match op
    case AbortMultipartUpload(a, v, u) => [a, "vaults", v, "multipart-uploads", u]
    case AbortVaultLock(a, v) => [a, "vaults", v, "lock-policy"]
    case AddTagsToVault(a, v) => [a, "vaults", v, "tags?operation=add"]
    case CompleteMultipartUpload(a, v, u) => [a, "vaults", v, "multipart-uploads", u]
    case CompleteVaultLock(a, v, l) => [a, "vaults", v, "lock-policy", l]
    case CreateVault(a, v) => [a, "vaults", v]
    case DeleteArchive(a, v, x) => [a, "vaults", v, "archives", x]
    case DeleteVault(a, v) => [a, "vaults", v]
    case DeleteVaultAccessPolicy(a, v) => [a, "vaults", v, "access-policy"]
    case DeleteVaultNotifications(a, v) => [a, "vaults", v, "notification-configuration"]
    case DescribeJob(a, v, j) => [a, "vaults", v, "jobs", j]
    case DescribeVault(a, v) => [a, "vaults", v]
    case GetDataRetrievalPolicy(a) => [a, "policies", "data-retrieval"]
    case GetJobOutput(a, v, j) => [a, "vaults", v, "jobs", j, "output"]
    case GetVaultAccessPolicy(a, v) => [a, "vaults", v, "access-policy"]
    case GetVaultLock(a, v) => [a, "vaults", v, "lock-policy"]
    case GetVaultNotifications(a, v) => [a, "vaults", v, "notification-configuration"]
    case InitiateJob(a, v) => [a, "vaults", v, "jobs"]
    case InitiateMultipartUpload(a, v) => [a, "vaults", v, "multipart-uploads"]
    case InitiateVaultLock(a, v) => [a, "vaults", v, "lock-policy"]
    case ListJobs(a, v) => [a, "vaults", v, "jobs"]
    case ListMultipartUploads(a, v) => [a, "vaults", v, "multipart-uploads"]
    case ListParts(a, v, u) => [a, "vaults", v, "multipart-uploads", u]
    case ListTagsForVault(a, v) => [a, "vaults", v, "tags"]
    case ListVaults(a) => [a, "vaults"]
    case RemoveTagsFromVault(a, v) => [a, "vaults", v, "tags?operation=remove"]
    case SetDataRetrievalPolicy(a) => [a, "policies", "data-retrieval"]
    case SetVaultAccessPolicy(a, v) => [a, "vaults", v, "access-policy"]
    case SetVaultNotifications(a, v) => [a, "vaults", v, "notification-configuration"]
    case UploadArchive(a, v) => [a, "vaults", v, "archives"]
    case UploadMultipartPart(a, v, u) => [a, "vaults", v, "multipart-uploads", u]
  }

  /** No path parameter of `op` contains '/' (the literal segments never do). */
  predicate PathParamsSlashFree(op: Operation) {
    forall k :: 0 <= k < |Segments(op)| ==> SlashFree(Segments(op)[k])
  }

  lemma JoinCons(x: string, rest: seq<string>)
    requires |rest| >= 1
    ensures Join([x] + rest) == x + "/" + Join(rest)
  {
    assert ([x] + rest)[1..] == rest;
  }

  /** URI shape `acct/vaults/v`. */
  lemma VaultShape(base: string, a: string, v: string)
    ensures base + "/" + a + "/vaults/" + v == base + "/" + Join([a, "vaults", v])
  {
    assert Join([v]) == v;
    JoinCons("vaults", [v]);
    JoinCons(a, ["vaults", v]);
    assert [a] + ["vaults", v] == [a, "vaults", v];
    assert ["vaults"] + [v] == ["vaults", v];
    assert "/vaults/" == "/" + "vaults" + "/";
  }

  /** URI shape `acct/vaults/v/lit`. */
  lemma VaultLiteralShape(base: string, a: string, v: string, slashLit: string, lit: string)
    requires slashLit == "/" + lit
    ensures base + "/" + a + "/vaults/" + v + slashLit == base + "/" + Join([a, "vaults", v, lit])
  {
    assert Join([lit]) == lit;
    JoinCons(v, [lit]);
    assert [v] + [lit] == [v, lit];
    JoinCons("vaults", [v, lit]);
    assert ["vaults"] + [v, lit] == ["vaults", v, lit];
    JoinCons(a, ["vaults", v, lit]);
    assert [a] + ["vaults", v, lit] == [a, "vaults", v, lit];
    assert "/vaults/" == "/" + "vaults" + "/";
  }

  /** URI shape `acct/vaults/v/lit/p`. */
  lemma VaultParamShape(base: string, a: string, v: string, slashLitSlash: string, lit: string, p: string)
    requires slashLitSlash == "/" + lit + "/"
    ensures base + "/" + a + "/vaults/" + v + slashLitSlash + p == base + "/" + Join([a, "vaults", v, lit, p])
  {
    assert Join([p]) == p;
    JoinCons(lit, [p]);
    assert [lit] + [p] == [lit, p];
    JoinCons(v, [lit, p]);
    assert [v] + [lit, p] == [v, lit, p];
    JoinCons("vaults", [v, lit, p]);
    assert ["vaults"] + [v, lit, p] == ["vaults", v, lit, p];
    JoinCons(a, ["vaults", v, lit, p]);
    assert [a] + ["vaults", v, lit, p] == [a, "vaults", v, lit, p];
    assert "/vaults/" == "/" + "vaults" + "/";
  }

  /** Joining one more segment appends "/" and the segment. */
  lemma {:induction false} JoinSnoc(segs: seq<string>, x: string)
    requires |segs| >= 1
    ensures Join(segs + [x]) == Join(segs) + "/" + x
  {
    if |segs| == 1 {
      assert segs + [x] == [segs[0], x];
    } else {
      JoinSnoc(segs[1..], x);
      assert (segs + [x])[1..] == segs[1..] + [x];
    }
  }

  /** `p` followed by the joined segments, extended by one segment. */
  lemma ExtendPath(p: string, segs: seq<string>, x: string)
    requires |segs| >= 1
    ensures p + Join(segs) + ("/" + x) == p + Join(segs + [x])
  {
    JoinSnoc(segs, x);
  }

  /** URI shape `acct/vaults/v/jobs/j/output`. */
  lemma JobOutputShape(base: string, a: string, v: string, j: string)
    ensures base + "/" + a + "/vaults/" + v + "/jobs/" + j + "/output" == base + "/" + Join([a, "vaults", v, "jobs", j, "output"])
  {
    JobLiterals();
    VaultParamShape(base, a, v, "/jobs/", "jobs", j);
    ExtendPath(base + "/", [a, "vaults", v, "jobs", j], "output");
    assert [a, "vaults", v, "jobs", j] + ["output"] == [a, "vaults", v, "jobs", j, "output"];
    assert "/output" == "/" + "output";
  }

  /** URI shape `acct/vaults`. */
  lemma VaultListShape(base: string, a: string)
    ensures base + "/" + a + "/vaults" == base + "/" + Join([a, "vaults"])
  {
    ExtendPath(base + "/", [a], "vaults");
    assert [a] + ["vaults"] == [a, "vaults"];
    assert "/vaults" == "/" + "vaults";
  }

  lemma RetrievalPolicyLiteral()
    ensures "/policies/data-retrieval" == "/" + "policies" + ("/" + "data-retrieval")
  {
  }

  /** URI shape `acct/policies/data-retrieval`. */
  lemma RetrievalPolicyShape(base: string, a: string)
    ensures base + "/" + a + "/policies/data-retrieval" == base + "/" + Join([a, "policies", "data-retrieval"])
  {
    RetrievalPolicyLiteral();
    ExtendPath(base + "/", [a], "policies");
    assert [a] + ["policies"] == [a, "policies"];
    ExtendPath(base + "/", [a, "policies"], "data-retrieval");
    assert [a, "policies"] + ["data-retrieval"] == [a, "policies", "data-retrieval"];
  }

  /* The literal text of the templates, split at '/'. */

  lemma LockLiterals()
    ensures "/lock-policy" == "/" + "lock-policy" && "/lock-policy/" == "/" + "lock-policy" + "/"
  {
  }

  lemma TagLiterals()
    ensures "/tags" == "/" + "tags"
    ensures "/tags?operation=add" == "/" + "tags?operation=add"
    ensures "/tags?operation=remove" == "/" + "tags?operation=remove"
  {
  }

  lemma AccessPolicyLiteral()
    ensures "/access-policy" == "/" + "access-policy"
  {
  }

  lemma NotificationLiteral()
    ensures "/notification-configuration" == "/" + "notification-configuration"
  {
  }

  lemma JobLiterals()
    ensures "/jobs" == "/" + "jobs" && "/jobs/" == "/" + "jobs" + "/"
  {
  }

  lemma UploadLiterals()
    ensures "/multipart-uploads" == "/" + "multipart-uploads" && "/multipart-uploads/" == "/" + "multipart-uploads" + "/"
  {
  }

  lemma ArchiveLiterals()
    ensures "/archives" == "/" + "archives" && "/archives/" == "/" + "archives" + "/"
  {
  }

  /* One lemma per operation: its URI template is the base followed by its segments joined by '/',
     and the router maps its method and segments back to it. */

  lemma AbortMultipartUploadTemplate(base: string, a: string, v: string, u: string)
    ensures Uri(base, AbortMultipartUpload(a, v, u)) == base + "/" + Join(Segments(AbortMultipartUpload(a, v, u)))
    ensures Route(MethodOf(AbortMultipartUpload(a, v, u)), Segments(AbortMultipartUpload(a, v, u))) == Some(AbortMultipartUpload(a, v, u))
  {
    UploadLiterals();
    VaultParamShape(base, a, v, "/multipart-uploads/", "multipart-uploads", u);
  }

  lemma AbortVaultLockTemplate(base: string, a: string, v: string)
    ensures Uri(base, AbortVaultLock(a, v)) == base + "/" + Join(Segments(AbortVaultLock(a, v)))
    ensures Route(MethodOf(AbortVaultLock(a, v)), Segments(AbortVaultLock(a, v))) == Some(AbortVaultLock(a, v))
  {
    LockLiterals();
    VaultLiteralShape(base, a, v, "/lock-policy", "lock-policy");
  }

  lemma AddTagsToVaultTemplate(base: string, a: string, v: string)
    ensures Uri(base, AddTagsToVault(a, v)) == base + "/" + Join(Segments(AddTagsToVault(a, v)))
    ensures Route(MethodOf(AddTagsToVault(a, v)), Segments(AddTagsToVault(a, v))) == Some(AddTagsToVault(a, v))
  {
    TagLiterals();
    VaultLiteralShape(base, a, v, "/tags?operation=add", "tags?operation=add");
  }

  lemma CompleteMultipartUploadTemplate(base: string, a: string, v: string, u: string)
    ensures Uri(base, CompleteMultipartUpload(a, v, u)) == base + "/" + Join(Segments(CompleteMultipartUpload(a, v, u)))
    ensures Route(MethodOf(CompleteMultipartUpload(a, v, u)), Segments(CompleteMultipartUpload(a, v, u))) == Some(CompleteMultipartUpload(a, v, u))
  {
    UploadLiterals();
    VaultParamShape(base, a, v, "/multipart-uploads/", "multipart-uploads", u);
  }

  lemma CompleteVaultLockTemplate(base: string, a: string, v: string, l: string)
    ensures Uri(base, CompleteVaultLock(a, v, l)) == base + "/" + Join(Segments(CompleteVaultLock(a, v, l)))
    ensures Route(MethodOf(CompleteVaultLock(a, v, l)), Segments(CompleteVaultLock(a, v, l))) == Some(CompleteVaultLock(a, v, l))
  {
    LockLiterals();
    VaultParamShape(base, a, v, "/lock-policy/", "lock-policy", l);
  }

  lemma CreateVaultTemplate(base: string, a: string, v: string)
    ensures Uri(base, CreateVault(a, v)) == base + "/" + Join(Segments(CreateVault(a, v)))
    ensures Route(MethodOf(CreateVault(a, v)), Segments(CreateVault(a, v))) == Some(CreateVault(a, v))
  {
    VaultShape(base, a, v);
  }

  lemma DeleteArchiveTemplate(base: string, a: string, v: string, x: string)
    ensures Uri(base, DeleteArchive(a, v, x)) == base + "/" + Join(Segments(DeleteArchive(a, v, x)))
    ensures Route(MethodOf(DeleteArchive(a, v, x)), Segments(DeleteArchive(a, v, x))) == Some(DeleteArchive(a, v, x))
  {
    ArchiveLiterals();
    VaultParamShape(base, a, v, "/archives/", "archives", x);
  }

  lemma DeleteVaultTemplate(base: string, a: string, v: string)
    ensures Uri(base, DeleteVault(a, v)) == base + "/" + Join(Segments(DeleteVault(a, v)))
    ensures Route(MethodOf(DeleteVault(a, v)), Segments(DeleteVault(a, v))) == Some(DeleteVault(a, v))
  {
    VaultShape(base, a, v);
  }

  lemma DeleteVaultAccessPolicyTemplate(base: string, a: string, v: string)
    ensures Uri(base, DeleteVaultAccessPolicy(a, v)) == base + "/" + Join(Segments(DeleteVaultAccessPolicy(a, v)))
    ensures Route(MethodOf(DeleteVaultAccessPolicy(a, v)), Segments(DeleteVaultAccessPolicy(a, v))) == Some(DeleteVaultAccessPolicy(a, v))
  {
    AccessPolicyLiteral();
    VaultLiteralShape(base, a, v, "/access-policy", "access-policy");
  }

  lemma DeleteVaultNotificationsTemplate(base: string, a: string, v: string)
    ensures Uri(base, DeleteVaultNotifications(a, v)) == base + "/" + Join(Segments(DeleteVaultNotifications(a, v)))
    ensures Route(MethodOf(DeleteVaultNotifications(a, v)), Segments(DeleteVaultNotifications(a, v))) == Some(DeleteVaultNotifications(a, v))
  {
    NotificationLiteral();
    VaultLiteralShape(base, a, v, "/notification-configuration", "notification-configuration");
  }

  lemma DescribeJobTemplate(base: string, a: string, v: string, j: string)
    ensures Uri(base, DescribeJob(a, v, j)) == base + "/" + Join(Segments(DescribeJob(a, v, j)))
    ensures Route(MethodOf(DescribeJob(a, v, j)), Segments(DescribeJob(a, v, j))) == Some(DescribeJob(a, v, j))
  {
    JobLiterals();
    VaultParamShape(base, a, v, "/jobs/", "jobs", j);
  }

  lemma DescribeVaultTemplate(base: string, a: string, v: string)
    ensures Uri(base, DescribeVault(a, v)) == base + "/" + Join(Segments(DescribeVault(a, v)))
    ensures Route(MethodOf(DescribeVault(a, v)), Segments(DescribeVault(a, v))) == Some(DescribeVault(a, v))
  {
    VaultShape(base, a, v);
  }

  lemma GetDataRetrievalPolicyTemplate(base: string, a: string)
    ensures Uri(base, GetDataRetrievalPolicy(a)) == base + "/" + Join(Segments(GetDataRetrievalPolicy(a)))
    ensures Route(MethodOf(GetDataRetrievalPolicy(a)), Segments(GetDataRetrievalPolicy(a))) == Some(GetDataRetrievalPolicy(a))
  {
    RetrievalPolicyShape(base, a);
  }

  lemma GetJobOutputTemplate(base: string, a: string, v: string, j: string)
    ensures Uri(base, GetJobOutput(a, v, j)) == base + "/" + Join(Segments(GetJobOutput(a, v, j)))
    ensures Route(MethodOf(GetJobOutput(a, v, j)), Segments(GetJobOutput(a, v, j))) == Some(GetJobOutput(a, v, j))
  {
    JobOutputShape(base, a, v, j);
  }

  lemma GetVaultAccessPolicyTemplate(base: string, a: string, v: string)
    ensures Uri(base, GetVaultAccessPolicy(a, v)) == base + "/" + Join(Segments(GetVaultAccessPolicy(a, v)))
    ensures Route(MethodOf(GetVaultAccessPolicy(a, v)), Segments(GetVaultAccessPolicy(a, v))) == Some(GetVaultAccessPolicy(a, v))
  {
    AccessPolicyLiteral();
    VaultLiteralShape(base, a, v, "/access-policy", "access-policy");
  }

  lemma GetVaultLockTemplate(base: string, a: string, v: string)
    ensures Uri(base, GetVaultLock(a, v)) == base + "/" + Join(Segments(GetVaultLock(a, v)))
    ensures Route(MethodOf(GetVaultLock(a, v)), Segments(GetVaultLock(a, v))) == Some(GetVaultLock(a, v))
  {
    LockLiterals();
    VaultLiteralShape(base, a, v, "/lock-policy", "lock-policy");
  }

  lemma GetVaultNotificationsTemplate(base: string, a: string, v: string)
    ensures Uri(base, GetVaultNotifications(a, v)) == base + "/" + Join(Segments(GetVaultNotifications(a, v)))
    ensures Route(MethodOf(GetVaultNotifications(a, v)), Segments(GetVaultNotifications(a, v))) == Some(GetVaultNotifications(a, v))
  {
    NotificationLiteral();
    VaultLiteralShape(base, a, v, "/notification-configuration", "notification-configuration");
  }

  lemma InitiateJobTemplate(base: string, a: string, v: string)
    ensures Uri(base, InitiateJob(a, v)) == base + "/" + Join(Segments(InitiateJob(a, v)))
    ensures Route(MethodOf(InitiateJob(a, v)), Segments(InitiateJob(a, v))) == Some(InitiateJob(a, v))
  {
    JobLiterals();
    VaultLiteralShape(base, a, v, "/jobs", "jobs");
  }

  lemma InitiateMultipartUploadTemplate(base: string, a: string, v: string)
    ensures Uri(base, InitiateMultipartUpload(a, v)) == base + "/" + Join(Segments(InitiateMultipartUpload(a, v)))
    ensures Route(MethodOf(InitiateMultipartUpload(a, v)), Segments(InitiateMultipartUpload(a, v))) == Some(InitiateMultipartUpload(a, v))
  {
    UploadLiterals();
    VaultLiteralShape(base, a, v, "/multipart-uploads", "multipart-uploads");
  }

  lemma InitiateVaultLockTemplate(base: string, a: string, v: string)
    ensures Uri(base, InitiateVaultLock(a, v)) == base + "/" + Join(Segments(InitiateVaultLock(a, v)))
    ensures Route(MethodOf(InitiateVaultLock(a, v)), Segments(InitiateVaultLock(a, v))) == Some(InitiateVaultLock(a, v))
  {
    LockLiterals();
    VaultLiteralShape(base, a, v, "/lock-policy", "lock-policy");
  }

  lemma ListJobsTemplate(base: string, a: string, v: string)
    ensures Uri(base, ListJobs(a, v)) == base + "/" + Join(Segments(ListJobs(a, v)))
    ensures Route(MethodOf(ListJobs(a, v)), Segments(ListJobs(a, v))) == Some(ListJobs(a, v))
  {
    JobLiterals();
    VaultLiteralShape(base, a, v, "/jobs", "jobs");
  }

  lemma ListMultipartUploadsTemplate(base: string, a: string, v: string)
    ensures Uri(base, ListMultipartUploads(a, v)) == base + "/" + Join(Segments(ListMultipartUploads(a, v)))
    ensures Route(MethodOf(ListMultipartUploads(a, v)), Segments(ListMultipartUploads(a, v))) == Some(ListMultipartUploads(a, v))
  {
    UploadLiterals();
    VaultLiteralShape(base, a, v, "/multipart-uploads", "multipart-uploads");
  }

  lemma ListPartsTemplate(base: string, a: string, v: string, u: string)
    ensures Uri(base, ListParts(a, v, u)) == base + "/" + Join(Segments(ListParts(a, v, u)))
    ensures Route(MethodOf(ListParts(a, v, u)), Segments(ListParts(a, v, u))) == Some(ListParts(a, v, u))
  {
    UploadLiterals();
    VaultParamShape(base, a, v, "/multipart-uploads/", "multipart-uploads", u);
  }

  lemma ListTagsForVaultTemplate(base: string, a: string, v: string)
    ensures Uri(base, ListTagsForVault(a, v)) == base + "/" + Join(Segments(ListTagsForVault(a, v)))
    ensures Route(MethodOf(ListTagsForVault(a, v)), Segments(ListTagsForVault(a, v))) == Some(ListTagsForVault(a, v))
  {
    TagLiterals();
    VaultLiteralShape(base, a, v, "/tags", "tags");
  }

  lemma ListVaultsTemplate(base: string, a: string)
    ensures Uri(base, ListVaults(a)) == base + "/" + Join(Segments(ListVaults(a)))
    ensures Route(MethodOf(ListVaults(a)), Segments(ListVaults(a))) == Some(ListVaults(a))
  {
    VaultListShape(base, a);
  }

  lemma RemoveTagsFromVaultTemplate(base: string, a: string, v: string)
    ensures Uri(base, RemoveTagsFromVault(a, v)) == base + "/" + Join(Segments(RemoveTagsFromVault(a, v)))
    ensures Route(MethodOf(RemoveTagsFromVault(a, v)), Segments(RemoveTagsFromVault(a, v))) == Some(RemoveTagsFromVault(a, v))
  {
    TagLiterals();
    VaultLiteralShape(base, a, v, "/tags?operation=remove", "tags?operation=remove");
  }

  lemma SetDataRetrievalPolicyTemplate(base: string, a: string)
    ensures Uri(base, SetDataRetrievalPolicy(a)) == base + "/" + Join(Segments(SetDataRetrievalPolicy(a)))
    ensures Route(MethodOf(SetDataRetrievalPolicy(a)), Segments(SetDataRetrievalPolicy(a))) == Some(SetDataRetrievalPolicy(a))
  {
    RetrievalPolicyShape(base, a);
  }

  lemma SetVaultAccessPolicyTemplate(base: string, a: string, v: string)
    ensures Uri(base, SetVaultAccessPolicy(a, v)) == base + "/" + Join(Segments(SetVaultAccessPolicy(a, v)))
    ensures Route(MethodOf(SetVaultAccessPolicy(a, v)), Segments(SetVaultAccessPolicy(a, v))) == Some(SetVaultAccessPolicy(a, v))
  {
    AccessPolicyLiteral();
    VaultLiteralShape(base, a, v, "/access-policy", "access-policy");
  }

  lemma SetVaultNotificationsTemplate(base: string, a: string, v: string)
    ensures Uri(base, SetVaultNotifications(a, v)) == base + "/" + Join(Segments(SetVaultNotifications(a, v)))
    ensures Route(MethodOf(SetVaultNotifications(a, v)), Segments(SetVaultNotifications(a, v))) == Some(SetVaultNotifications(a, v))
  {
    NotificationLiteral();
    VaultLiteralShape(base, a, v, "/notification-configuration", "notification-configuration");
  }

  lemma UploadArchiveTemplate(base: string, a: string, v: string)
    ensures Uri(base, UploadArchive(a, v)) == base + "/" + Join(Segments(UploadArchive(a, v)))
    ensures Route(MethodOf(UploadArchive(a, v)), Segments(UploadArchive(a, v))) == Some(UploadArchive(a, v))
  {
    ArchiveLiterals();
    VaultLiteralShape(base, a, v, "/archives", "archives");
  }

  lemma UploadMultipartPartTemplate(base: string, a: string, v: string, u: string)
    ensures Uri(base, UploadMultipartPart(a, v, u)) == base + "/" + Join(Segments(UploadMultipartPart(a, v, u)))
    ensures Route(MethodOf(UploadMultipartPart(a, v, u)), Segments(UploadMultipartPart(a, v, u))) == Some(UploadMultipartPart(a, v, u))
  {
    UploadLiterals();
    VaultParamShape(base, a, v, "/multipart-uploads/", "multipart-uploads", u);
  }

  /** Every operation's URI is the base, "/" and its segments joined by '/', and its method and
      segments route back to it. */
  lemma TemplateSegments(base: string, op: Operation)
    ensures Uri(base, op) == base + "/" + Join(Segments(op))
    ensures Route(MethodOf(op), Segments(op)) == Some(op)
  {
    match op
    case AbortMultipartUpload(a, v, u) => AbortMultipartUploadTemplate(base, a, v, u);
    case AbortVaultLock(a, v) => AbortVaultLockTemplate(base, a, v);
    case AddTagsToVault(a, v) => AddTagsToVaultTemplate(base, a, v);
    case CompleteMultipartUpload(a, v, u) => CompleteMultipartUploadTemplate(base, a, v, u);
    case CompleteVaultLock(a, v, l) => CompleteVaultLockTemplate(base, a, v, l);
    case CreateVault(a, v) => CreateVaultTemplate(base, a, v);
    case DeleteArchive(a, v, x) => DeleteArchiveTemplate(base, a, v, x);
    case DeleteVault(a, v) => DeleteVaultTemplate(base, a, v);
    case DeleteVaultAccessPolicy(a, v) => DeleteVaultAccessPolicyTemplate(base, a, v);
    case DeleteVaultNotifications(a, v) => DeleteVaultNotificationsTemplate(base, a, v);
    case DescribeJob(a, v, j) => DescribeJobTemplate(base, a, v, j);
    case DescribeVault(a, v) => DescribeVaultTemplate(base, a, v);
    case GetDataRetrievalPolicy(a) => GetDataRetrievalPolicyTemplate(base, a);
    case GetJobOutput(a, v, j) => GetJobOutputTemplate(base, a, v, j);
    case GetVaultAccessPolicy(a, v) => GetVaultAccessPolicyTemplate(base, a, v);
    case GetVaultLock(a, v) => GetVaultLockTemplate(base, a, v);
    case GetVaultNotifications(a, v) => GetVaultNotificationsTemplate(base, a, v);
    case InitiateJob(a, v) => InitiateJobTemplate(base, a, v);
    case InitiateMultipartUpload(a, v) => InitiateMultipartUploadTemplate(base, a, v);
    case InitiateVaultLock(a, v) => InitiateVaultLockTemplate(base, a, v);
    case ListJobs(a, v) => ListJobsTemplate(base, a, v);
    case ListMultipartUploads(a, v) => ListMultipartUploadsTemplate(base, a, v);
    case ListParts(a, v, u) => ListPartsTemplate(base, a, v, u);
    case ListTagsForVault(a, v) => ListTagsForVaultTemplate(base, a, v);
    case ListVaults(a) => ListVaultsTemplate(base, a);
    case RemoveTagsFromVault(a, v) => RemoveTagsFromVaultTemplate(base, a, v);
    case SetDataRetrievalPolicy(a) => SetDataRetrievalPolicyTemplate(base, a);
    case SetVaultAccessPolicy(a, v) => SetVaultAccessPolicyTemplate(base, a, v);
    case SetVaultNotifications(a, v) => SetVaultNotificationsTemplate(base, a, v);
    case UploadArchive(a, v) => UploadArchiveTemplate(base, a, v);
    case UploadMultipartPart(a, v, u) => UploadMultipartPartTemplate(base, a, v, u);
  }

  /** The operation a method and the segments after the account id select, within one vault. */
  function RouteVault(m: HttpMethod, a: string, v: string, tail: seq<string>): Option<Operation> {
    if tail == [] then
      match m
      case HttpPut => Some(CreateVault(a, v))
      case HttpDelete => Some(DeleteVault(a, v))
      case HttpGet => Some(DescribeVault(a, v))
      case HttpPost => None
    else if tail == ["multipart-uploads"] then
      match m
      case HttpPost => Some(InitiateMultipartUpload(a, v))
      case HttpGet => Some(ListMultipartUploads(a, v))
      case _ => None
    else if |tail| == 2 && tail[0] == "multipart-uploads" then
      match m
      case HttpDelete => Some(AbortMultipartUpload(a, v, tail[1]))
      case HttpPost => Some(CompleteMultipartUpload(a, v, tail[1]))
      case HttpGet => Some(ListParts(a, v, tail[1]))
      case HttpPut => Some(UploadMultipartPart(a, v, tail[1]))
    else if tail == ["lock-policy"] then
      match m
      case HttpDelete => Some(AbortVaultLock(a, v))
      case HttpGet => Some(GetVaultLock(a, v))
      case HttpPost => Some(InitiateVaultLock(a, v))
      case HttpPut => None
    else if |tail| == 2 && tail[0] == "lock-policy" then
      if m == HttpPost then Some(CompleteVaultLock(a, v, tail[1])) else None
    else if tail == ["tags?operation=add"] then
      if m == HttpPost then Some(AddTagsToVault(a, v)) else None
    else if tail == ["tags?operation=remove"] then
      if m == HttpPost then Some(RemoveTagsFromVault(a, v)) else None
    else if tail == ["tags"] then
      if m == HttpGet then Some(ListTagsForVault(a, v)) else None
    else if tail == ["archives"] then
      if m == HttpPost then Some(UploadArchive(a, v)) else None
    else if |tail| == 2 && tail[0] == "archives" then
      if m == HttpDelete then Some(DeleteArchive(a, v, tail[1])) else None
    else if tail == ["access-policy"] then
      match m
      case HttpDelete => Some(DeleteVaultAccessPolicy(a, v))
      case HttpGet => Some(GetVaultAccessPolicy(a, v))
      case HttpPut => Some(SetVaultAccessPolicy(a, v))
      case HttpPost => None
    else if tail == ["notification-configuration"] then
      match m
      case HttpDelete => Some(DeleteVaultNotifications(a, v))
      case HttpGet => Some(GetVaultNotifications(a, v))
      case HttpPut => Some(SetVaultNotifications(a, v))
      case HttpPost => None
    else if tail == ["jobs"] then
      match m
      case HttpPost => Some(InitiateJob(a, v))
      case HttpGet => Some(ListJobs(a, v))
      case _ => None
    else if |tail| == 2 && tail[0] == "jobs" then
      if m == HttpGet then Some(DescribeJob(a, v, tail[1])) else None
    else if |tail| == 3 && tail[0] == "jobs" && tail[2] == "output" then
      if m == HttpGet then Some(GetJobOutput(a, v, tail[1])) else None
    else None
  }

  /** The operation a method and the full segment list select. */
  function Route(m: HttpMethod, segs: seq<string>): Option<Operation> {
    if |segs| < 2 then None
    else if segs[1..] == ["vaults"] then
      if m == HttpGet then Some(ListVaults(segs[0])) else None
    else if segs[1..] == ["policies", "data-retrieval"] then
      match m
      case HttpGet => Some(GetDataRetrievalPolicy(segs[0]))
      case HttpPut => Some(SetDataRetrievalPolicy(segs[0]))
      case _ => None
    else if |segs| >= 3 && segs[1] == "vaults" then
      RouteVault(m, segs[0], segs[2], segs[3..])
    else None
  }

  /** The operation a request with method `m` and URI `uri` addresses, for a client whose base URI is `base`. */
  function Dispatch(base: string, m: HttpMethod, uri: string): Option<Operation> {
    if |base| + 1 <= |uri| && uri[..|base| + 1] == base + "/" then Route(m, Split(uri[|base| + 1..]))
    else None
  }

  /** Round trip: the URI and method an operation is sent with identify exactly that operation and
      its path parameters, provided none of them contains '/'. */
  lemma DispatchRoundTrip(base: string, op: Operation)
    requires PathParamsSlashFree(op)
    ensures Dispatch(base, MethodOf(op), Uri(base, op)) == Some(op)
  {
    var segs := Segments(op);
    TemplateSegments(base, op);
    var uri := Uri(base, op);
    assert uri[..|base| + 1] == base + "/";
    assert uri[|base| + 1..] == Join(segs);
    SplitJoin(segs);
  }

  /** Two operations sent with the same method to the same URI are the same operation. */
  lemma RoutingUnambiguous(base: string, op1: Operation, op2: Operation)
    requires PathParamsSlashFree(op1) && PathParamsSlashFree(op2)
    requires MethodOf(op1) == MethodOf(op2) && Uri(base, op1) == Uri(base, op2)
    ensures op1 == op2
  {
    DispatchRoundTrip(base, op1);
    DispatchRoundTrip(base, op2);
  }
}
