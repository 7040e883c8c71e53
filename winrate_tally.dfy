// The win-rate tally of the reproduction scripts: every question of every
// category is judged twice per result file, once with the two systems'
// answers in the original order and once reversed, and each of the six
// metrics' verdicts becomes one vote per order in the per-domain and the
// overall tallies.  Reading the JSON files and writing the percentages are
// not modelled; the dataset and the parsed result files are parameters.

module WinrateTally {
  import opened Common

  /** The six judged metrics. */
  datatype Metric = Comprehensiveness | Empowerment | Trustworthiness | Depth | Density | OverallWinner

  /** The metrics in the order the tally visits them. */
  const Metrics: seq<Metric> := [Comprehensiveness, Empowerment, Trustworthiness, Depth, Density, OverallWinner]

  /** The key each metric has in a judgement's JSON object. */
  function MetricName(m: Metric): string
  {
    match m
    case Comprehensiveness => "Comprehensiveness"
    case Empowerment => "Empowerment"
    case Trustworthiness => "Trustworthiness"
    case Depth => "Depth"
    case Density => "Density"
    case OverallWinner => "Overall Winner"
  }

  /** The three domains of the dataset. */
  datatype Domain = Lecture | Documentary | Entertainment

  /** A domain's name, the dataset's `type` field and the key of its tally. */
  function DomainName(d: Domain): string
  {
    match d
    case Lecture => "lecture"
    case Documentary => "documentary"
    case Entertainment => "entertainment"
  }

  /** The two verdicts a judgement may give. */
  predicate ValidWinner(w: string)
  {
    w == "Answer 1" || w == "Answer 2"
  }

  /** The system answering first in the original order. */
  const ModelA := "videorag"

  /** A category of the dataset: its id, domain (`type`), description and question ids. */
  datatype Category = Category(id: string, domain: string, description: string, questions: seq<string>)

  /** A parsed judgement: each metric's `Winner` string, for the metrics it has. */
  type Judgement = map<Metric, string>

  /** A parsed result file: custom id to judgement. */
  type ResultFile = map<string, Judgement>

  /** Votes for the first and the second system. */
  datatype Tally = Tally(a: nat, b: nat)

  function Plus(t: Tally, u: Tally): Tally
  {
    Tally(t.a + u.a, t.b + u.b)
  }

  // ------------------------------------------------------------ custom ids

  /** `f"{category_id}-{description}"`. */
  function CategoryName(c: Category): string
  {
    c.id + "-" + c.description
  }

  /** The key of the original-order judgement the tally looks up. */
  function OriKey(category: string, queryId: string, modelA: string, modelB: string): string
  {
    category + "++query" + queryId + "++answers-" + modelA + "++answers-" + modelB + "++ori"
  }

  /** The key of the reversed-order judgement the tally looks up. */
  function RevKey(category: string, queryId: string, modelA: string, modelB: string): string
  {
    category + "++query" + queryId + "++answers-" + modelB + "++answers-" + modelA + "++rev"
  }

  /** The custom id the upload script gives the original-order request. */
  function UploadOriId(id: string, videoListName: string, queryId: string, ourDir: string, comDir: string): string
  {
    id + "-" + videoListName + "++query" + queryId + "++" + ourDir + "++" + comDir + "++ori"
  }

  /** The custom id the upload script gives the reversed-order request. */
  function UploadRevId(id: string, videoListName: string, queryId: string, ourDir: string, comDir: string): string
  {
    id + "-" + videoListName + "++query" + queryId + "++" + comDir + "++" + ourDir + "++rev"
  }

  /**
   * The keys the tally looks up are the custom ids the upload script wrote
   * for the same category and question, with the answer directories
   * `answers-<model>`; and the two orders of one question never share a key.
   */
  lemma KeysMatchUpload(c: Category, queryId: string, modelB: string)
    ensures OriKey(CategoryName(c), queryId, ModelA, modelB) ==
            UploadOriId(c.id, c.description, queryId, "answers-" + ModelA, "answers-" + modelB)
    ensures RevKey(CategoryName(c), queryId, ModelA, modelB) ==
            UploadRevId(c.id, c.description, queryId, "answers-" + ModelA, "answers-" + modelB)
    ensures OriKey(CategoryName(c), queryId, ModelA, modelB) != RevKey(CategoryName(c), queryId, ModelA, modelB)
  {
    OriKeyMatches(c.id, c.description, queryId, ModelA, modelB);
    RevKeyMatches(c.id, c.description, queryId, ModelA, modelB);
    KeysEndApart(CategoryName(c), queryId, ModelA, modelB);
  }

  lemma OriKeyMatches(id: string, description: string, queryId: string, a: string, b: string)
    ensures OriKey(id + "-" + description, queryId, a, b) == UploadOriId(id, description, queryId, "answers-" + a, "answers-" + b)
  {
  }

  lemma RevKeyMatches(id: string, description: string, queryId: string, a: string, b: string)
    ensures RevKey(id + "-" + description, queryId, a, b) == UploadRevId(id, description, queryId, "answers-" + a, "answers-" + b)
  {
  }

  /** The two keys of one question end in "ori" and "rev". */
  lemma KeysEndApart(category: string, queryId: string, a: string, b: string)
    ensures OriKey(category, queryId, a, b) != RevKey(category, queryId, a, b)
  {
    var ori, rev := OriKey(category, queryId, a, b), RevKey(category, queryId, a, b);
    assert |ori| == |rev|;
    assert ori[|ori| - 1] == 'i' && rev[|rev| - 1] == 'v';
  }

  // ----------------------------------------------------------------- votes

  /** A metric's `Winner`, or "" when the judgement lacks the metric. */
  function WinnerOf(j: Judgement, metric: Metric): string
  {
    if metric in j then j[metric] else ""
  }

  function Lookup(file: ResultFile, key: string): Judgement
  {
    if key in file then file[key] else map[]
  }

  /** 1 when a verdict contains the character '1', else 0, scanning it from the front. */
  function MentionsOne(winner: string): (r: nat)
    ensures r <= 1
  {
    if |winner| == 0 then 0 else if winner[0] == '1' then 1 else MentionsOne(winner[1..])
  }

  /** The scan is Python's `'1' in winner`. */
  lemma {:induction false} MentionsOneIsIn(winner: string)
    ensures MentionsOne(winner) == if '1' in winner then 1 else 0
  {
    if |winner| > 0 {
      MentionsOneIsIn(winner[1..]);
      assert winner == [winner[0]] + winner[1..];
    }
  }

  /** Original order: a verdict mentioning '1' is a vote for the first system, anything else for the second. */
  function OriVote(winner: string): Tally
  {
    Tally(MentionsOne(winner), 1 - MentionsOne(winner))
  }

  /** Reversed order: a verdict mentioning '1' is a vote for the second system, anything else for the first. */
  function RevVote(winner: string): Tally
  {
    Tally(1 - MentionsOne(winner), MentionsOne(winner))
  }

  /** The two votes a metric gets from one question in one result file. */
  function PairVotes(ori: Judgement, rev: Judgement, metric: Metric): (r: Tally)
    ensures r.a + r.b == 2
  {
    Plus(OriVote(WinnerOf(ori, metric)), RevVote(WinnerOf(rev, metric)))
  }

  /** 1 when a verdict prefers the answer shown first, else 0. */
  function PrefersFirst(w: string): nat
  {
    if w == "Answer 1" then 1 else 0
  }

  /**
   * With valid verdicts `x` in the original order and `y` in the reversed
   * order, the first system gets one vote for each order in which the
   * judge preferred it: `x` preferring the first answer shown, `y` the
   * second.
   */
  lemma PairVotesFollowVerdicts(x: string, y: string)
    requires ValidWinner(x) && ValidWinner(y)
    ensures Plus(OriVote(x), RevVote(y)) == Tally(PrefersFirst(x) + 1 - PrefersFirst(y), 1 - PrefersFirst(x) + PrefersFirst(y))
  {
    VerdictMentionsOne(x);
    VerdictMentionsOne(y);
  }

  /**
   * Judging both orders cancels the position of the answers: a judge that
   * prefers the same system in both orders gives it both votes.
   */
  lemma ConsistentJudgeGivesBothVotes(x: string, y: string)
    requires ValidWinner(x) && ValidWinner(y) && x != y
    ensures x == "Answer 1" ==> Plus(OriVote(x), RevVote(y)) == Tally(2, 0)
    ensures x == "Answer 2" ==> Plus(OriVote(x), RevVote(y)) == Tally(0, 2)
  {
    PairVotesFollowVerdicts(x, y);
  }

  /** A judge that prefers the same position in both orders gives each system one vote. */
  lemma PositionBiasSplitsVotes(x: string)
    requires ValidWinner(x)
    ensures Plus(OriVote(x), RevVote(x)) == Tally(1, 1)
  {
    PairVotesFollowVerdicts(x, x);
  }

  /** Of the two valid verdicts exactly "Answer 1" contains '1'. */
  lemma VerdictMentionsOne(w: string)
    requires ValidWinner(w)
    ensures MentionsOne(w) == if w == "Answer 1" then 1 else 0
  {
    MentionsOneIsIn(w);
    if w == "Answer 2" {
      assert forall i :: 0 <= i < |w| ==> w[i] != '1';
    } else {
      assert w[7] == '1';
    }
  }

  // ------------------------------------------------------------ the check

  /**
   * The check as written: it reads the metric variable left over from the
   * earlier loops, which is always the last metric, and only in the
   * original order.
   */
  predicate CheckAsWritten(ori: Judgement)
  {
    Metrics[|Metrics| - 1] in ori && ValidWinner(ori[Metrics[|Metrics| - 1]])
  }

  /** The intended check: every metric has a valid verdict in both orders. */
  predicate WinnersValid(ori: Judgement, rev: Judgement)
  {
    forall m: Metric :: m in ori && m in rev && ValidWinner(ori[m]) && ValidWinner(rev[m])
  }

  /**
   * The check as written lets a malformed verdict through, and it is
   * counted: with "Tie" for comprehensiveness in the original order and
   * valid verdicts for every other metric, the judgement passes and the
   * "Tie" becomes a vote for the second system.
   */
  lemma CheckMissesOtherMetrics(ori: Judgement, rev: Judgement)
    requires ori == map[Comprehensiveness := "Tie", Empowerment := "Answer 1", Trustworthiness := "Answer 1",
                        Depth := "Answer 1", Density := "Answer 1", OverallWinner := "Answer 1"]
    ensures CheckAsWritten(ori) && !WinnersValid(ori, rev)
    ensures OriVote(WinnerOf(ori, Comprehensiveness)) == Tally(0, 1)
  {
    assert !ValidWinner(ori[Metrics[0]]) by {
      assert |"Tie"| != |"Answer 1"|;
    }
    assert '1' !in "Tie";
  }

  /**
   * Under the intended check every vote follows the judge: for each metric
   * the first system's votes are its verdict in the original order plus
   * its verdict in the reversed order.
   */
  lemma ValidVotesFollowJudge(ori: Judgement, rev: Judgement)
    requires WinnersValid(ori, rev)
    ensures forall m: Metric :: PairVotes(ori, rev, m).a ==
              (if ori[m] == "Answer 1" then 1 else 0) + (if rev[m] == "Answer 2" then 1 else 0)
  {
    forall m: Metric
      ensures PairVotes(ori, rev, m).a == (if ori[m] == "Answer 1" then 1 else 0) + (if rev[m] == "Answer 2" then 1 else 0)
    {
      PairVotesFollowVerdicts(ori[m], rev[m]);
    }
  }

  /**
   * Which check a question's judgements go through: the script's own, or
   * the intended one that every verdict of both orders is valid.
   */
  datatype Check = AsWritten | Intended

  /**
   * The judgements of a question get through the check and both metric
   * loops.  As written, the last metric's original-order verdict must be
   * valid and every metric must be present in both judgements (a missing
   * one is a KeyError in the middle of the loops); other verdicts may be
   * anything.
   */
  predicate Passes(check: Check, ori: Judgement, rev: Judgement)
  {
    match check
    case AsWritten => CheckAsWritten(ori) && forall m: Metric :: m in ori && m in rev
    case Intended => WinnersValid(ori, rev)
  }

  /** The first of `ms` a judgement lacks, if any. */
  function FirstAbsent(j: Judgement, ms: seq<Metric>): (r: Option<Metric>)
    ensures r.Some? ==> r.value in ms && r.value !in j
    ensures r.None? <==> forall k :: 0 <= k < |ms| ==> ms[k] in j
  {
    if |ms| == 0 then None
    else if ms[0] !in j then Some(ms[0])
    else
      var rest := FirstAbsent(j, ms[1..]);
      assert forall k :: 1 <= k < |ms| ==> ms[k] == ms[1..][k - 1];
      rest
  }

  /**
   * What a failed check raises.  As written: a KeyError for a missing last
   * metric, an AssertionError for its invalid verdict, and otherwise the
   * KeyError of the first metric the original-order loop, then the
   * reversed-order loop, does not find.
   */
  function CheckError(check: Check, ori: Judgement, rev: Judgement): (e: PyError)
    requires !Passes(check, ori, rev)
    ensures check.AsWritten? && CheckAsWritten(ori) ==> e.KeyError? && exists m: Metric :: MetricName(m) == e.key && (m !in ori || m !in rev)
    ensures check.Intended? || !CheckAsWritten(ori) ==> e == AssertionError("Winner") || e == KeyError(MetricName(OverallWinner))
  {
    if check.AsWritten? && OverallWinner !in ori then KeyError(MetricName(OverallWinner))
    else if check.Intended? || !CheckAsWritten(ori) then AssertionError("Winner")
    else if FirstAbsent(ori, Metrics).Some? then KeyError(MetricName(FirstAbsent(ori, Metrics).value))
    else
      MetricsCover(ori);
      assert FirstAbsent(rev, Metrics).Some? by {
        var m: Metric :| m !in rev;
        MetricsCoverOne(m);
      }
      KeyError(MetricName(FirstAbsent(rev, Metrics).value))
  }

  /** Every metric is one of the six the loops visit. */
  lemma MetricsCoverOne(m: Metric)
    ensures exists k :: 0 <= k < |Metrics| && Metrics[k] == m
  {
    var k := match m
      case Comprehensiveness => 0 case Empowerment => 1 case Trustworthiness => 2
      case Depth => 3 case Density => 4 case OverallWinner => 5;
    assert Metrics[k] == m;
  }

  /** A judgement that has each of the six listed metrics has every metric. */
  lemma MetricsCover(j: Judgement)
    requires forall k :: 0 <= k < |Metrics| ==> Metrics[k] in j
    ensures forall m: Metric :: m in j
  {
    forall m: Metric
      ensures m in j
    {
      MetricsCoverOne(m);
    }
  }

  /** Whatever the intended check accepts, the script's own check accepts too. */
  lemma IntendedPassesAsWritten(ori: Judgement, rev: Judgement)
    requires Passes(Intended, ori, rev)
    ensures Passes(AsWritten, ori, rev)
  {
    assert OverallWinner in ori && ValidWinner(ori[OverallWinner]);
  }

  /** One question of one result file can be counted: both judgements exist and pass, and the domain is tallied. */
  predicate PairOk(file: ResultFile, c: Category, queryId: string, modelA: string, modelB: string, check: Check)
  {
    var ori := OriKey(CategoryName(c), queryId, modelA, modelB);
    var rev := RevKey(CategoryName(c), queryId, modelA, modelB);
    ori in file && rev in file && Passes(check, file[ori], file[rev]) && FindDomain(c.domain).Some?
  }

  /**
   * The question gets as far as its first `domain_win_count` lookup.  As
   * written that lookup comes right after the first metric's
   * original-order verdict is read, so only the leftover check and that
   * metric stand before it; the intended check stands before it as a whole.
   */
  predicate ReachesDomain(check: Check, ori: Judgement, rev: Judgement)
  {
    match check
    case AsWritten => CheckAsWritten(ori) && Metrics[0] in ori
    case Intended => WinnersValid(ori, rev)
  }

  /**
   * What a question whose judgements both exist raises when it cannot be
   * counted: the check's error when the first domain lookup is never
   * reached, the KeyError of the domain when it is reached and the domain
   * is not listed, and otherwise the check's error for a metric the loops
   * reach later.
   */
  function PairError(check: Check, ori: Judgement, rev: Judgement, domain: string): (e: PyError)
    requires !(Passes(check, ori, rev) && FindDomain(domain).Some?)
    ensures ReachesDomain(check, ori, rev) && FindDomain(domain).None? ==> e == KeyError(domain)
    ensures !(ReachesDomain(check, ori, rev) && FindDomain(domain).None?) ==> !Passes(check, ori, rev) && e == CheckError(check, ori, rev)
  {
    if ReachesDomain(check, ori, rev) && FindDomain(domain).None? then KeyError(domain)
    else CheckError(check, ori, rev)
  }

  /** What a question that cannot be counted raises, in the order the script meets the failures. */
  function QuestionError(file: ResultFile, c: Category, queryId: string, modelA: string, modelB: string, check: Check): (e: PyError)
    requires !PairOk(file, c, queryId, modelA, modelB, check)
    ensures e.KeyError? || e.AssertionError?
  {
    var ori := OriKey(CategoryName(c), queryId, modelA, modelB);
    var rev := RevKey(CategoryName(c), queryId, modelA, modelB);
    if ori !in file then KeyError(ori)
    else if rev !in file then KeyError(rev)
    else PairError(check, file[ori], file[rev], c.domain)
  }

  /**
   * As written, an unlisted domain is raised before any metric the loops
   * read after the first one: once the leftover check passes and the first
   * metric is present, whatever else either judgement lacks, the error is
   * the domain's KeyError.  Under the intended check the domain comes last.
   */
  lemma UnlistedDomainRaisedFirst(ori: Judgement, rev: Judgement, domain: string)
    requires FindDomain(domain).None?
    ensures CheckAsWritten(ori) && Comprehensiveness in ori ==> PairError(AsWritten, ori, rev, domain) == KeyError(domain)
    ensures !CheckAsWritten(ori) ==> PairError(AsWritten, ori, rev, domain) == CheckError(AsWritten, ori, rev)
    ensures WinnersValid(ori, rev) <==> PairError(Intended, ori, rev, domain) == KeyError(domain)
  {
    if !WinnersValid(ori, rev) {
      assert CheckError(Intended, ori, rev) == AssertionError("Winner");
    }
  }

  /**
   * A "sports" category whose original-order judgement is complete and
   * whose reversed one lacks "Depth" raises the domain's KeyError as
   * written, not the metric's.
   */
  lemma UnlistedDomainBeforeMissingMetric()
    ensures PairError(AsWritten, AllFirst, AllFirst - {Depth}, "sports") == KeyError("sports")
  {
    assert DomainName(Lecture) != "sports" && DomainName(Documentary) != "sports" && DomainName(Entertainment) != "sports";
    assert FindIn("sports", Domains[2..]) == FindIn("sports", Domains[3..]);
    assert FindDomain("sports").None?;
    assert Depth !in AllFirst - {Depth};
  }

  /** The first `n` questions of a category can be counted in one result file. */
  predicate QueriesOk(file: ResultFile, c: Category, n: nat, modelA: string, modelB: string, check: Check)
    requires n <= |c.questions|
  {
    n == 0 || (QueriesOk(file, c, n - 1, modelA, modelB, check) && PairOk(file, c, c.questions[n - 1], modelA, modelB, check))
  }

  /** A category can be counted in the first `n` result files. */
  predicate FilesOk(files: seq<ResultFile>, c: Category, n: nat, modelA: string, modelB: string, check: Check)
    requires n <= |files|
  {
    n == 0 || (FilesOk(files, c, n - 1, modelA, modelB, check) && QueriesOk(files[n - 1], c, |c.questions|, modelA, modelB, check))
  }

  /** The first `n` categories can be counted in every result file. */
  predicate AllOk(cats: seq<Category>, files: seq<ResultFile>, n: nat, modelA: string, modelB: string, check: Check)
    requires n <= |cats|
  {
    n == 0 || (AllOk(cats, files, n - 1, modelA, modelB, check) && FilesOk(files, cats[n - 1], |files|, modelA, modelB, check))
  }

  /** Counting succeeds on a prefix of the questions exactly when it succeeds on each of them. */
  lemma {:induction false} QueriesOkEach(file: ResultFile, c: Category, n: nat, modelA: string, modelB: string, check: Check)
    requires n <= |c.questions|
    ensures QueriesOk(file, c, n, modelA, modelB, check) <==> forall i :: 0 <= i < n ==> PairOk(file, c, c.questions[i], modelA, modelB, check)
  {
    if n > 0 {
      QueriesOkEach(file, c, n - 1, modelA, modelB, check);
    }
  }

  /** Counting succeeds on a prefix of the result files exactly when it succeeds on each of them. */
  lemma {:induction false} FilesOkEach(files: seq<ResultFile>, c: Category, n: nat, modelA: string, modelB: string, check: Check)
    requires n <= |files|
    ensures FilesOk(files, c, n, modelA, modelB, check) <==> forall j :: 0 <= j < n ==> QueriesOk(files[j], c, |c.questions|, modelA, modelB, check)
  {
    if n > 0 {
      FilesOkEach(files, c, n - 1, modelA, modelB, check);
    }
  }

  /** Counting succeeds on a prefix of the categories exactly when it succeeds on each of them. */
  lemma {:induction false} AllOkEach(cats: seq<Category>, files: seq<ResultFile>, n: nat, modelA: string, modelB: string, check: Check)
    requires n <= |cats|
    ensures AllOk(cats, files, n, modelA, modelB, check) <==> forall i :: 0 <= i < n ==> FilesOk(files, cats[i], |files|, modelA, modelB, check)
  {
    if n > 0 {
      AllOkEach(cats, files, n - 1, modelA, modelB, check);
    }
  }

  /** One question that cannot be counted makes every longer prefix of the questions fail. */
  lemma {:induction false} QueriesOkStops(file: ResultFile, c: Category, i: nat, n: nat, modelA: string, modelB: string, check: Check)
    requires i < n <= |c.questions|
    requires !PairOk(file, c, c.questions[i], modelA, modelB, check)
    ensures !QueriesOk(file, c, n, modelA, modelB, check)
  {
    if n > i + 1 {
      QueriesOkStops(file, c, i, n - 1, modelA, modelB, check);
    }
  }

  /** One result file that cannot be counted makes every longer prefix of the files fail. */
  lemma {:induction false} FilesOkStops(files: seq<ResultFile>, c: Category, j: nat, n: nat, modelA: string, modelB: string, check: Check)
    requires j < n <= |files|
    requires !QueriesOk(files[j], c, |c.questions|, modelA, modelB, check)
    ensures !FilesOk(files, c, n, modelA, modelB, check)
  {
    if n > j + 1 {
      FilesOkStops(files, c, j, n - 1, modelA, modelB, check);
    }
  }

  /** One category that cannot be counted makes every longer prefix of the categories fail. */
  lemma {:induction false} AllOkStops(cats: seq<Category>, files: seq<ResultFile>, i: nat, n: nat, modelA: string, modelB: string, check: Check)
    requires i < n <= |cats|
    requires !FilesOk(files, cats[i], |files|, modelA, modelB, check)
    ensures !AllOk(cats, files, n, modelA, modelB, check)
  {
    if n > i + 1 {
      AllOkStops(cats, files, i, n - 1, modelA, modelB, check);
    }
  }

  // ---------------------------------------------------------- vote totals

  /** One tally per metric. */
  datatype Votes = Votes(comprehensiveness: Tally, empowerment: Tally, trustworthiness: Tally,
                         depth: Tally, density: Tally, overallWinner: Tally)

  /** A metric's tally. */
  function At(v: Votes, m: Metric): Tally
  {
    match m
    case Comprehensiveness => v.comprehensiveness
    case Empowerment => v.empowerment
    case Trustworthiness => v.trustworthiness
    case Depth => v.depth
    case Density => v.density
    case OverallWinner => v.overallWinner
  }

  const NoVotes: Votes := Votes(Tally(0, 0), Tally(0, 0), Tally(0, 0), Tally(0, 0), Tally(0, 0), Tally(0, 0))

  /** Metric-wise sum of two vote vectors. */
  function VecPlus(u: Votes, v: Votes): Votes
  {
    Votes(Plus(u.comprehensiveness, v.comprehensiveness), Plus(u.empowerment, v.empowerment),
          Plus(u.trustworthiness, v.trustworthiness), Plus(u.depth, v.depth),
          Plus(u.density, v.density), Plus(u.overallWinner, v.overallWinner))
  }

  /** `v` with `t` added to metric `m`'s tally, as one `+= 1` of the metric loop. */
  function Bump(v: Votes, m: Metric, t: Tally): Votes
  {
    match m
    case Comprehensiveness => v.(comprehensiveness := Plus(v.comprehensiveness, t))
    case Empowerment => v.(empowerment := Plus(v.empowerment, t))
    case Trustworthiness => v.(trustworthiness := Plus(v.trustworthiness, t))
    case Depth => v.(depth := Plus(v.depth, t))
    case Density => v.(density := Plus(v.density, t))
    case OverallWinner => v.(overallWinner := Plus(v.overallWinner, t))
  }

  lemma VecPlusAt(u: Votes, v: Votes, m: Metric)
    ensures At(VecPlus(u, v), m) == Plus(At(u, m), At(v, m))
  {
  }

  lemma VecPlusAssoc(u: Votes, v: Votes, w: Votes)
    ensures VecPlus(VecPlus(u, v), w) == VecPlus(u, VecPlus(v, w))
  {
  }

  lemma VecPlusNone(u: Votes)
    ensures VecPlus(u, NoVotes) == u
  {
  }

  /** Adding `f` to any one of three vectors adds it to their sum. */
  lemma VecPlusOneOfThree(a: Votes, b: Votes, c: Votes, f: Votes)
    ensures VecPlus(VecPlus(VecPlus(a, f), b), c) == VecPlus(VecPlus(VecPlus(a, b), c), f)
    ensures VecPlus(VecPlus(a, VecPlus(b, f)), c) == VecPlus(VecPlus(VecPlus(a, b), c), f)
    ensures VecPlus(VecPlus(a, b), VecPlus(c, f)) == VecPlus(VecPlus(VecPlus(a, b), c), f)
  {
  }

  /** Every metric of `v` holds exactly `n` votes. */
  predicate Balanced(v: Votes, n: nat)
  {
    v.comprehensiveness.a + v.comprehensiveness.b == n && v.empowerment.a + v.empowerment.b == n &&
    v.trustworthiness.a + v.trustworthiness.b == n && v.depth.a + v.depth.b == n &&
    v.density.a + v.density.b == n && v.overallWinner.a + v.overallWinner.b == n
  }

  lemma BalancedAt(v: Votes, n: nat, m: Metric)
    requires Balanced(v, n)
    ensures At(v, m).a + At(v, m).b == n
  {
  }

  lemma VecPlusBalanced(u: Votes, v: Votes, x: nat, y: nat)
    requires Balanced(u, x) && Balanced(v, y)
    ensures Balanced(VecPlus(u, v), x + y)
  {
  }

  /** A verdict's vote in the original order or, when `reversed`, in the reversed order. */
  function OrderVote(winner: string, reversed: bool): Tally
  {
    if reversed then RevVote(winner) else OriVote(winner)
  }

  /**
   * The votes one judgement gives in one order to the first `n` metrics of
   * `ms`, bumped one metric after the other.
   */
  function OrderVotes(j: Judgement, reversed: bool, ms: seq<Metric>, n: nat): Votes
    requires n <= |ms|
  {
    if n == 0 then NoVotes
    else Bump(OrderVotes(j, reversed, ms, n - 1), ms[n - 1], OrderVote(WinnerOf(j, ms[n - 1]), reversed))
  }

  /** The votes one judgement gives in one order, over every metric. */
  function OrderVector(j: Judgement, reversed: bool): Votes
  {
    OrderVotes(j, reversed, Metrics, |Metrics|)
  }

  /** Whether `m` is among the first `n` metrics of `ms`. */
  predicate Listed(ms: seq<Metric>, n: nat, m: Metric)
    requires n <= |ms|
  {
    n > 0 && (ms[n - 1] == m || Listed(ms, n - 1, m))
  }

  /** `Listed` is membership in the prefix. */
  lemma {:induction false} ListedIsIn(ms: seq<Metric>, n: nat, m: Metric)
    requires n <= |ms|
    ensures Listed(ms, n, m) <==> m in ms[..n]
  {
    if n > 0 {
      ListedIsIn(ms, n - 1, m);
      assert ms[..n] == ms[..n - 1] + [ms[n - 1]];
    }
  }

  /** No metric is listed twice among the first `n` of `ms`. */
  predicate Distinct(ms: seq<Metric>, n: nat)
    requires n <= |ms|
  {
    n == 0 || (Distinct(ms, n - 1) && !Listed(ms, n - 1, ms[n - 1]))
  }

  /** `Bump` changes only the bumped metric's tally. */
  lemma BumpAt(v: Votes, m: Metric, t: Tally, n: Metric)
    ensures At(Bump(v, m, t), n) == if n == m then Plus(At(v, n), t) else At(v, n)
  {
  }

  /** The tally metric `m` gets when each of the first `n` metrics of `ms` that is `m` adds the vote `t`. */
  function OrderTally(t: Tally, ms: seq<Metric>, n: nat, m: Metric): Tally
    requires n <= |ms|
  {
    if n == 0 then Tally(0, 0)
    else if ms[n - 1] == m then Plus(OrderTally(t, ms, n - 1, m), t)
    else OrderTally(t, ms, n - 1, m)
  }

  /** The loop's vector holds, metric by metric, the metric's own tally. */
  lemma {:induction false} OrderVotesAt(j: Judgement, reversed: bool, ms: seq<Metric>, n: nat, m: Metric)
    requires n <= |ms|
    ensures At(OrderVotes(j, reversed, ms, n), m) == OrderTally(OrderVote(WinnerOf(j, m), reversed), ms, n, m)
  {
    if n > 0 {
      OrderVotesAt(j, reversed, ms, n - 1, m);
      BumpAt(OrderVotes(j, reversed, ms, n - 1), ms[n - 1], OrderVote(WinnerOf(j, ms[n - 1]), reversed), m);
    }
  }

  /** Over distinct metrics, a listed metric's tally is its one vote and an unlisted one's is empty. */
  lemma {:induction false} OrderTallyListed(t: Tally, ms: seq<Metric>, n: nat, m: Metric)
    requires n <= |ms| && Distinct(ms, n)
    ensures OrderTally(t, ms, n, m) == if Listed(ms, n, m) then t else Tally(0, 0)
  {
    if n > 0 {
      OrderTallyListed(t, ms, n - 1, m);
    }
  }

  /** A metric at place `k` is listed in every longer prefix. */
  lemma {:induction false} ListedAt(ms: seq<Metric>, n: nat, k: nat)
    requires k < n <= |ms|
    ensures Listed(ms, n, ms[k])
  {
    if k < n - 1 {
      ListedAt(ms, n - 1, k);
    }
  }

  /** Every metric is listed once in `Metrics`. */
  lemma MetricsListed(m: Metric)
    ensures Distinct(Metrics, |Metrics|) && Listed(Metrics, |Metrics|, m)
  {
    var k := match m
      case Comprehensiveness => 0 case Empowerment => 1 case Trustworthiness => 2
      case Depth => 3 case Density => 4 case OverallWinner => 5;
    ListedAt(Metrics, |Metrics|, k);
    forall i | 0 < i < |Metrics|
      ensures !Listed(Metrics, i, Metrics[i])
    {
      ListedIsIn(Metrics, i, Metrics[i]);
    }
    assert Distinct(Metrics, 1);
    assert Distinct(Metrics, 2);
    assert Distinct(Metrics, 3);
    assert Distinct(Metrics, 4);
    assert Distinct(Metrics, 5);
  }

  lemma OrderVectorAt(j: Judgement, reversed: bool, m: Metric)
    ensures At(OrderVector(j, reversed), m) == OrderVote(WinnerOf(j, m), reversed)
  {
    MetricsListed(m);
    OrderVotesAt(j, reversed, Metrics, |Metrics|, m);
    OrderTallyListed(OrderVote(WinnerOf(j, m), reversed), Metrics, |Metrics|, m);
  }

  /** The votes of one question in the two orders, metric by metric. */
  function PairVector(ori: Judgement, rev: Judgement): Votes
  {
    VecPlus(OrderVector(ori, false), OrderVector(rev, true))
  }

  /** A vector whose every metric holds `n` votes is balanced. */
  lemma BalancedOfAt(v: Votes, n: nat)
    requires forall m :: At(v, m).a + At(v, m).b == n
    ensures Balanced(v, n)
  {
    assert At(v, Comprehensiveness).a + At(v, Comprehensiveness).b == n;
    assert At(v, Empowerment).a + At(v, Empowerment).b == n;
    assert At(v, Trustworthiness).a + At(v, Trustworthiness).b == n;
    assert At(v, Depth).a + At(v, Depth).b == n;
    assert At(v, Density).a + At(v, Density).b == n;
    assert At(v, OverallWinner).a + At(v, OverallWinner).b == n;
  }

  /** Each metric of a question's vector holds that metric's two votes, so every metric gets two. */
  lemma PairVectorAt(ori: Judgement, rev: Judgement, m: Metric)
    ensures At(PairVector(ori, rev), m) == PairVotes(ori, rev, m)
    ensures Balanced(PairVector(ori, rev), 2)
  {
    forall n: Metric
      ensures At(PairVector(ori, rev), n) == PairVotes(ori, rev, n)
    {
      OrderVectorAt(ori, false, n);
      OrderVectorAt(rev, true, n);
      VecPlusAt(OrderVector(ori, false), OrderVector(rev, true), n);
    }
    BalancedOfAt(PairVector(ori, rev), 2);
  }

  /** The votes one question of one category gets from one result file. */
  function QueryVotes(file: ResultFile, c: Category, queryId: string, modelA: string, modelB: string): Votes
  {
    PairVector(Lookup(file, OriKey(CategoryName(c), queryId, modelA, modelB)),
               Lookup(file, RevKey(CategoryName(c), queryId, modelA, modelB)))
  }

  /** The votes of the first `n` questions of a category in one result file. */
  function QueriesVotes(file: ResultFile, c: Category, n: nat, modelA: string, modelB: string): Votes
    requires n <= |c.questions|
  {
    if n == 0 then NoVotes
    else VecPlus(QueriesVotes(file, c, n - 1, modelA, modelB), QueryVotes(file, c, c.questions[n - 1], modelA, modelB))
  }

  /** The votes of a category in the first `n` result files. */
  function FilesVotes(files: seq<ResultFile>, c: Category, n: nat, modelA: string, modelB: string): Votes
    requires n <= |files|
  {
    if n == 0 then NoVotes
    else VecPlus(FilesVotes(files, c, n - 1, modelA, modelB), QueriesVotes(files[n - 1], c, |c.questions|, modelA, modelB))
  }

  /** The votes of the first `n` categories. */
  function CatsVotes(cats: seq<Category>, files: seq<ResultFile>, n: nat, modelA: string, modelB: string): Votes
    requires n <= |cats|
  {
    if n == 0 then NoVotes
    else VecPlus(CatsVotes(cats, files, n - 1, modelA, modelB), FilesVotes(files, cats[n - 1], |files|, modelA, modelB))
  }

  /** The votes of the first `n` categories that belong to domain `d`. */
  function DomainVotes(cats: seq<Category>, files: seq<ResultFile>, n: nat, d: Domain, modelA: string, modelB: string): Votes
    requires n <= |cats|
  {
    if n == 0 then NoVotes
    else RowAdd(DomainVotes(cats, files, n - 1, d, modelA, modelB), d, cats[n - 1].domain,
                FilesVotes(files, cats[n - 1], |files|, modelA, modelB))
  }

  /** The number of questions of the first `n` categories. */
  function QuestionCount(cats: seq<Category>, n: nat): nat
    requires n <= |cats|
  {
    if n == 0 then 0 else QuestionCount(cats, n - 1) + |cats[n - 1].questions|
  }

  /** Each question of a result file gives every metric exactly two votes. */
  lemma {:induction false} QueriesVotesTotal(file: ResultFile, c: Category, n: nat, modelA: string, modelB: string)
    requires n <= |c.questions|
    ensures Balanced(QueriesVotes(file, c, n, modelA, modelB), 2 * n)
  {
    if n > 0 {
      QueriesVotesTotal(file, c, n - 1, modelA, modelB);
      var q := c.questions[n - 1];
      PairVectorAt(Lookup(file, OriKey(CategoryName(c), q, modelA, modelB)),
                   Lookup(file, RevKey(CategoryName(c), q, modelA, modelB)), Comprehensiveness);
      VecPlusBalanced(QueriesVotes(file, c, n - 1, modelA, modelB), QueryVotes(file, c, q, modelA, modelB), 2 * (n - 1), 2);
    }
  }

  /** A category gets two votes per metric for each of its questions in each result file. */
  lemma FilesVotesTotal(files: seq<ResultFile>, c: Category, n: nat, modelA: string, modelB: string)
    requires n <= |files|
    ensures Balanced(FilesVotes(files, c, n, modelA, modelB), n * (2 * |c.questions|))
  {
    FilesVotesRounds(files, c, n, modelA, modelB);
    RoundsIsProduct(n, 2 * |c.questions|);
  }

  /** Overall, every metric gets two votes per question per result file. */
  lemma CatsVotesTotal(cats: seq<Category>, files: seq<ResultFile>, n: nat, modelA: string, modelB: string)
    requires n <= |cats|
    ensures Balanced(CatsVotes(cats, files, n, modelA, modelB), |files| * (2 * QuestionCount(cats, n)))
  {
    CatsVotesRounds(cats, files, n, modelA, modelB);
    RoundsIsProduct(|files|, 2 * QuestionCount(cats, n));
  }

  /** `per` added `n` times; the totals are built this way before they are read as products. */
  function Rounds(n: nat, per: nat): nat
  {
    if n == 0 then 0 else Rounds(n - 1, per) + per
  }

  lemma {:induction false} RoundsIsProduct(n: nat, per: nat)
    ensures Rounds(n, per) == n * per
  {
    if n > 0 {
      RoundsIsProduct(n - 1, per);
      assert n * per == (n - 1) * per + per;
    }
  }

  lemma {:induction false} RoundsAdd(n: nat, x: nat, y: nat)
    ensures Rounds(n, x) + Rounds(n, y) == Rounds(n, x + y)
  {
    if n > 0 {
      RoundsAdd(n - 1, x, y);
    }
  }

  lemma {:induction false} FilesVotesRounds(files: seq<ResultFile>, c: Category, n: nat, modelA: string, modelB: string)
    requires n <= |files|
    ensures Balanced(FilesVotes(files, c, n, modelA, modelB), Rounds(n, 2 * |c.questions|))
  {
    if n > 0 {
      FilesVotesRounds(files, c, n - 1, modelA, modelB);
      QueriesVotesTotal(files[n - 1], c, |c.questions|, modelA, modelB);
      VecPlusBalanced(FilesVotes(files, c, n - 1, modelA, modelB), QueriesVotes(files[n - 1], c, |c.questions|, modelA, modelB),
                      Rounds(n - 1, 2 * |c.questions|), 2 * |c.questions|);
    }
  }

  lemma {:induction false} CatsVotesRounds(cats: seq<Category>, files: seq<ResultFile>, n: nat, modelA: string, modelB: string)
    requires n <= |cats|
    ensures Balanced(CatsVotes(cats, files, n, modelA, modelB), Rounds(|files|, 2 * QuestionCount(cats, n)))
  {
    if n > 0 {
      CatsVotesRounds(cats, files, n - 1, modelA, modelB);
      CatsVotesRoundsStep(cats, files, n, modelA, modelB);
    } else {
      RoundsIsProduct(|files|, 0);
    }
  }

  lemma CatsVotesRoundsStep(cats: seq<Category>, files: seq<ResultFile>, n: nat, modelA: string, modelB: string)
    requires 0 < n <= |cats|
    requires Balanced(CatsVotes(cats, files, n - 1, modelA, modelB), Rounds(|files|, 2 * QuestionCount(cats, n - 1)))
    ensures Balanced(CatsVotes(cats, files, n, modelA, modelB), Rounds(|files|, 2 * QuestionCount(cats, n)))
  {
    FilesVotesRounds(files, cats[n - 1], |files|, modelA, modelB);
    BalancedRounds(CatsVotes(cats, files, n - 1, modelA, modelB), FilesVotes(files, cats[n - 1], |files|, modelA, modelB),
                   |files|, 2 * QuestionCount(cats, n - 1), 2 * |cats[n - 1].questions|);
  }

  /** Adding two vectors balanced over the same number of rounds adds their per-round votes. */
  lemma BalancedRounds(u: Votes, v: Votes, k: nat, x: nat, y: nat)
    requires Balanced(u, Rounds(k, x)) && Balanced(v, Rounds(k, y))
    ensures Balanced(VecPlus(u, v), Rounds(k, x + y))
  {
    RoundsAdd(k, x, y);
    VecPlusBalanced(u, v, Rounds(k, x), Rounds(k, y));
  }

  /** Each of the first `n` categories has one of the listed domains as its `type`. */
  predicate DomainsListed(cats: seq<Category>, n: nat)
    requires n <= |cats|
  {
    n == 0 || (DomainsListed(cats, n - 1) && FindDomain(cats[n - 1].domain).Some?)
  }

  /** When every category belongs to a listed domain, the three domain tallies add up to the overall one. */
  lemma {:induction false} DomainsAddUp(cats: seq<Category>, files: seq<ResultFile>, n: nat, modelA: string, modelB: string)
    requires n <= |cats|
    requires DomainsListed(cats, n)
    ensures VecPlus(VecPlus(DomainVotes(cats, files, n, Lecture, modelA, modelB),
                            DomainVotes(cats, files, n, Documentary, modelA, modelB)),
                    DomainVotes(cats, files, n, Entertainment, modelA, modelB)) ==
            CatsVotes(cats, files, n, modelA, modelB)
    decreases n, 1
  {
    if n == 0 {
      VecPlusNone(NoVotes);
      VecPlusNone(VecPlus(NoVotes, NoVotes));
    } else {
      DomainsAddUpStep(cats, files, n, modelA, modelB);
    }
  }

  /** The inductive step of `DomainsAddUp`: the last category lands in its domain's row and in the overall tally. */
  lemma DomainsAddUpStep(cats: seq<Category>, files: seq<ResultFile>, n: nat, modelA: string, modelB: string)
    requires 0 < n <= |cats|
    requires DomainsListed(cats, n)
    ensures VecPlus(VecPlus(DomainVotes(cats, files, n, Lecture, modelA, modelB),
                            DomainVotes(cats, files, n, Documentary, modelA, modelB)),
                    DomainVotes(cats, files, n, Entertainment, modelA, modelB)) ==
            CatsVotes(cats, files, n, modelA, modelB)
    decreases n, 0
  {
    DomainsAddUp(cats, files, n - 1, modelA, modelB);
    RowsAddUp(DomainVotes(cats, files, n - 1, Lecture, modelA, modelB),
              DomainVotes(cats, files, n - 1, Documentary, modelA, modelB),
              DomainVotes(cats, files, n - 1, Entertainment, modelA, modelB),
              FilesVotes(files, cats[n - 1], |files|, modelA, modelB), cats[n - 1].domain);
  }

  /** A category of a listed domain adds its votes to exactly one of the three rows. */
  lemma RowsAddUp(a: Votes, b: Votes, c: Votes, f: Votes, domain: string)
    requires FindDomain(domain).Some?
    ensures VecPlus(VecPlus(RowAdd(a, Lecture, domain, f), RowAdd(b, Documentary, domain, f)),
                    RowAdd(c, Entertainment, domain, f)) == VecPlus(VecPlus(VecPlus(a, b), c), f)
  {
    VecPlusOneOfThree(a, b, c, f);
    match FindDomain(domain).value
    case Lecture =>
    case Documentary =>
    case Entertainment =>
  }

  // -------------------------------------------------------------- counting

  /** The per-domain tallies, `domain_win_count`. */
  datatype Rows = Rows(lecture: Votes, documentary: Votes, entertainment: Votes)

  /** The tallies: `query_count`, `overall_win_count` by metric and `domain_win_count` by domain and metric. */
  datatype Counts = Counts(queryCount: nat, overall: Votes, byDomain: Rows)

  /** A domain's row. */
  function Row(rows: Rows, d: Domain): Votes
  {
    match d
    case Lecture => rows.lecture
    case Documentary => rows.documentary
    case Entertainment => rows.entertainment
  }

  /** The rows with domain `d`'s row replaced. */
  function SetRow(rows: Rows, d: Domain, v: Votes): Rows
  {
    match d
    case Lecture => rows.(lecture := v)
    case Documentary => rows.(documentary := v)
    case Entertainment => rows.(entertainment := v)
  }

  /** The domains in the order the dataset lists them; their names are the keys of `domain_win_count`. */
  const Domains: seq<Domain> := [Lecture, Documentary, Entertainment]

  /** The domain whose name is the category's `type`, as the `domain_win_count` lookup finds it. */
  function FindDomain(domain: string): Option<Domain>
  {
    FindIn(domain, Domains)
  }

  /** The first of `ds` named `domain`. */
  function FindIn(domain: string, ds: seq<Domain>): Option<Domain>
  {
    if |ds| == 0 then None
    else if DomainName(ds[0]) == domain then Some(ds[0])
    else FindIn(domain, ds[1..])
  }

  /** A domain found is a listed one, and its name is the one looked up. */
  lemma {:induction false} FindInSound(domain: string, ds: seq<Domain>)
    ensures FindIn(domain, ds).Some? ==> FindIn(domain, ds).value in ds && DomainName(FindIn(domain, ds).value) == domain
  {
    if |ds| > 0 && DomainName(ds[0]) != domain {
      FindInSound(domain, ds[1..]);
    }
  }

  /** The lookup finds exactly the domains whose name is looked up. */
  lemma FindDomainSound(domain: string)
    ensures FindDomain(domain).Some? ==> DomainName(FindDomain(domain).value) == domain
  {
    FindInSound(domain, Domains);
  }

  /** Every domain is found under its own name. */
  lemma FindDomainName(d: Domain)
    ensures FindDomain(DomainName(d)) == Some(d)
  {
    assert "lecture"[0] == 'l' && "documentary"[0] == 'd' && "entertainment"[0] == 'e';
    assert Domains[1..][1..] == [Entertainment];
  }

  /** Row `d` after a category whose `type` is `domain` adds votes `v`: they land in its own row only. */
  function RowAdd(row: Votes, d: Domain, domain: string, v: Votes): Votes
  {
    if FindDomain(domain) == Some(d) then VecPlus(row, v) else row
  }

  /** `counts` with the votes `v` of a category whose `type` is `domain` added to the overall tally and to the domain's row. */
  function Added(counts: Counts, v: Votes, domain: string): Counts
  {
    var rows := counts.byDomain;
    Counts(counts.queryCount, VecPlus(counts.overall, v),
           Rows(RowAdd(rows.lecture, Lecture, domain, v), RowAdd(rows.documentary, Documentary, domain, v),
                RowAdd(rows.entertainment, Entertainment, domain, v)))
  }

  /** Adding nothing changes nothing. */
  lemma AddedNothing(counts: Counts, domain: string)
    ensures Added(counts, NoVotes, domain) == counts
  {
    VecPlusNone(counts.overall);
    VecPlusNone(counts.byDomain.lecture);
    VecPlusNone(counts.byDomain.documentary);
    VecPlusNone(counts.byDomain.entertainment);
  }

  /** Adding twice adds the sum. */
  lemma AddedTwice(counts: Counts, u: Votes, v: Votes, domain: string)
    ensures Added(Added(counts, u, domain), v, domain) == Added(counts, VecPlus(u, v), domain)
  {
    VecPlusAssoc(counts.overall, u, v);
    VecPlusAssoc(counts.byDomain.lecture, u, v);
    VecPlusAssoc(counts.byDomain.documentary, u, v);
    VecPlusAssoc(counts.byDomain.entertainment, u, v);
  }

  /** Adding to the overall tally and to the row of the category's domain is `Added`. */
  lemma AddedToRow(counts: Counts, domain: string, v: Votes)
    requires FindDomain(domain).Some?
    ensures var d := FindDomain(domain).value;
            Counts(counts.queryCount, VecPlus(counts.overall, v), SetRow(counts.byDomain, d, VecPlus(Row(counts.byDomain, d), v)))
            == Added(counts, v, domain)
  {
  }

  /**
   * One metric loop of one question: each metric's verdict becomes a vote
   * in the overall tally and in the row of the category's domain.
   */
  method CountOrder(overall: Votes, row: Votes, j: Judgement, reversed: bool) returns (o: Votes, w: Votes)
    ensures o == VecPlus(overall, OrderVector(j, reversed)) && w == VecPlus(row, OrderVector(j, reversed))
  {
    o, w := overall, row;
    VecPlusNone(overall);
    VecPlusNone(row);
    var k := 0;
    while k < |Metrics|
      invariant 0 <= k <= |Metrics|
      invariant o == VecPlus(overall, OrderVotes(j, reversed, Metrics, k))
      invariant w == VecPlus(row, OrderVotes(j, reversed, Metrics, k))
    {
      var metric := Metrics[k];
      var v := OrderVote(WinnerOf(j, metric), reversed);
      BumpPlus(overall, OrderVotes(j, reversed, Metrics, k), metric, v);
      BumpPlus(row, OrderVotes(j, reversed, Metrics, k), metric, v);
      o := Bump(o, metric, v);
      w := Bump(w, metric, v);
      k := k + 1;
    }
  }

  lemma BumpPlus(u: Votes, v: Votes, m: Metric, t: Tally)
    ensures Bump(VecPlus(u, v), m, t) == VecPlus(u, Bump(v, m, t))
  {
  }

  /** Both metric loops of one question: the original order, then the reversed order. */
  method CountPair(overall: Votes, row: Votes, ori: Judgement, rev: Judgement) returns (o: Votes, w: Votes)
    ensures o == VecPlus(overall, PairVector(ori, rev)) && w == VecPlus(row, PairVector(ori, rev))
  {
    var o1, w1 := CountOrder(overall, row, ori, false);
    o, w := CountOrder(o1, w1, rev, true);
    VecPlusAssoc(overall, OrderVector(ori, false), OrderVector(rev, true));
    VecPlusAssoc(row, OrderVector(ori, false), OrderVector(rev, true));
  }

  /**
   * One question of one category and result file: look up both judgements
   * (a missing one is a KeyError), run the check up to the first domain
   * lookup, find the domain's tally (an unlisted domain is a KeyError),
   * then meet the rest of the check in the metric loops, and count both
   * orders.  What a failure raises is `QuestionError`.  The script's own
   * check leaves the verdicts of the other metrics unchecked.
   */
  method CountQuestion(counts: Counts, file: ResultFile, c: Category, q: string, modelA: string, modelB: string, check: Check)
    returns (r: Result<Counts, PyError>)
    ensures r.Ok? <==> PairOk(file, c, q, modelA, modelB, check)
    ensures r.Ok? ==> r.value == Added(counts, QueryVotes(file, c, q, modelA, modelB), c.domain)
    ensures r.Err? ==> !PairOk(file, c, q, modelA, modelB, check) && r.error == QuestionError(file, c, q, modelA, modelB, check)
  {
    var name := CategoryName(c);
    var oriKey := OriKey(name, q, modelA, modelB);
    var revKey := RevKey(name, q, modelA, modelB);
    if oriKey !in file {
      return Err(KeyError(oriKey));
    }
    if revKey !in file {
      return Err(KeyError(revKey));
    }
    var ori := file[oriKey];
    var rev := file[revKey];
    if !ReachesDomain(check, ori, rev) {
      return Err(CheckError(check, ori, rev));
    }
    var d := FindDomain(c.domain);
    if d.None? {
      return Err(KeyError(c.domain));
    }
    if !Passes(check, ori, rev) {
      return Err(CheckError(check, ori, rev));
    }
    var o, w := CountPair(counts.overall, Row(counts.byDomain, d.value), file[oriKey], file[revKey]);
    AddedToRow(counts, c.domain, PairVector(file[oriKey], file[revKey]));
    r := Ok(Counts(counts.queryCount, o, SetRow(counts.byDomain, d.value, w)));
  }

  /** The question loop of one category and result file. */
  method CountQueries(counts: Counts, file: ResultFile, c: Category, modelA: string, modelB: string, check: Check) returns (r: Result<Counts, PyError>)
    ensures r.Ok? <==> QueriesOk(file, c, |c.questions|, modelA, modelB, check)
    ensures r.Ok? ==> r.value == Added(counts, QueriesVotes(file, c, |c.questions|, modelA, modelB), c.domain)
  {
    var cur := counts;
    var i := 0;
    AddedNothing(counts, c.domain);
    while i < |c.questions|
      invariant 0 <= i <= |c.questions|
      invariant QueriesOk(file, c, i, modelA, modelB, check)
      invariant cur == Added(counts, QueriesVotes(file, c, i, modelA, modelB), c.domain)
    {
      var next := CountQuestion(cur, file, c, c.questions[i], modelA, modelB, check);
      if next.Err? {
        QueriesOkStops(file, c, i, |c.questions|, modelA, modelB, check);
        return next;
      }
      AddedTwice(counts, QueriesVotes(file, c, i, modelA, modelB), QueryVotes(file, c, c.questions[i], modelA, modelB), c.domain);
      cur := next.value;
      i := i + 1;
    }
    r := Ok(cur);
  }

  /** The result-file loop of one category. */
  method CountFiles(counts: Counts, files: seq<ResultFile>, c: Category, modelA: string, modelB: string, check: Check) returns (r: Result<Counts, PyError>)
    ensures r.Ok? <==> FilesOk(files, c, |files|, modelA, modelB, check)
    ensures r.Ok? ==> r.value == Added(counts, FilesVotes(files, c, |files|, modelA, modelB), c.domain)
  {
    var cur := counts;
    var j := 0;
    AddedNothing(counts, c.domain);
    while j < |files|
      invariant 0 <= j <= |files|
      invariant FilesOk(files, c, j, modelA, modelB, check)
      invariant cur == Added(counts, FilesVotes(files, c, j, modelA, modelB), c.domain)
    {
      var next := CountQueries(cur, files[j], c, modelA, modelB, check);
      if next.Err? {
        FilesOkStops(files, c, j, |files|, modelA, modelB, check);
        return next;
      }
      CountFilesStep(counts, files, c, j, modelA, modelB);
      cur := next.value;
      j := j + 1;
    }
    r := Ok(cur);
  }

  /** Counting one more file adds that file's votes to the tally of the files before it. */
  lemma CountFilesStep(counts: Counts, files: seq<ResultFile>, c: Category, j: nat, modelA: string, modelB: string)
    requires j < |files|
    ensures Added(Added(counts, FilesVotes(files, c, j, modelA, modelB), c.domain),
                  QueriesVotes(files[j], c, |c.questions|, modelA, modelB), c.domain)
            == Added(counts, FilesVotes(files, c, j + 1, modelA, modelB), c.domain)
  {
    AddedTwice(counts, FilesVotes(files, c, j, modelA, modelB), QueriesVotes(files[j], c, |c.questions|, modelA, modelB), c.domain);
  }

  /** The tallies after the first `n` categories. */
  function CountsAfter(cats: seq<Category>, files: seq<ResultFile>, n: nat, modelA: string, modelB: string): Counts
    requires n <= |cats|
  {
    Counts(QuestionCount(cats, n), CatsVotes(cats, files, n, modelA, modelB),
           Rows(DomainVotes(cats, files, n, Lecture, modelA, modelB),
                DomainVotes(cats, files, n, Documentary, modelA, modelB),
                DomainVotes(cats, files, n, Entertainment, modelA, modelB)))
  }

  /** Counting one more category adds its questions to the count and its votes to the overall tally and its domain's row. */
  lemma CountsAfterStep(cats: seq<Category>, files: seq<ResultFile>, n: nat, modelA: string, modelB: string)
    requires n < |cats|
    ensures var c := CountsAfter(cats, files, n, modelA, modelB);
            Added(c.(queryCount := c.queryCount + |cats[n].questions|), FilesVotes(files, cats[n], |files|, modelA, modelB), cats[n].domain)
            == CountsAfter(cats, files, n + 1, modelA, modelB)
  {
  }

  /**
   * The whole tally: for each category, add its question count, then count
   * every result file.  It fails exactly when some question of some file
   * cannot be counted; otherwise the question count is the dataset's,
   * independent of the number of files, the overall tally holds every
   * vote and each domain's row holds the votes of that domain's
   * categories.  `AsWritten` is the script; `Intended` counts only
   * judgements whose every verdict is valid.
   */
  method CountWins(cats: seq<Category>, files: seq<ResultFile>, modelA: string, modelB: string, check: Check) returns (r: Result<Counts, PyError>)
    ensures r.Ok? <==> AllOk(cats, files, |cats|, modelA, modelB, check)
    ensures r.Ok? ==> r.value == CountsAfter(cats, files, |cats|, modelA, modelB)
  {
    var cur := Counts(0, NoVotes, Rows(NoVotes, NoVotes, NoVotes));
    var i := 0;
    assert cur == CountsAfter(cats, files, 0, modelA, modelB);
    while i < |cats|
      invariant 0 <= i <= |cats|
      invariant AllOk(cats, files, i, modelA, modelB, check)
      invariant cur == CountsAfter(cats, files, i, modelA, modelB)
    {
      cur := cur.(queryCount := cur.queryCount + |cats[i].questions|);
      var next := CountFiles(cur, files, cats[i], modelA, modelB, check);
      if next.Err? {
        AllOkStops(cats, files, i, |cats|, modelA, modelB, check);
        return next;
      }
      CountsAfterStep(cats, files, i, modelA, modelB);
      cur := next.value;
      i := i + 1;
    }
    r := Ok(cur);
  }

  // ------------------------------------------------- the two checks compared

  /** Whatever the intended check lets through the whole tally, the script's own check does too. */
  lemma IntendedAcceptedAsWritten(cats: seq<Category>, files: seq<ResultFile>, modelA: string, modelB: string)
    requires AllOk(cats, files, |cats|, modelA, modelB, Intended)
    ensures AllOk(cats, files, |cats|, modelA, modelB, AsWritten)
  {
    AllOkEach(cats, files, |cats|, modelA, modelB, Intended);
    AllOkEach(cats, files, |cats|, modelA, modelB, AsWritten);
    forall i | 0 <= i < |cats|
      ensures FilesOk(files, cats[i], |files|, modelA, modelB, AsWritten)
    {
      var c := cats[i];
      FilesOkEach(files, c, |files|, modelA, modelB, Intended);
      FilesOkEach(files, c, |files|, modelA, modelB, AsWritten);
      forall j | 0 <= j < |files|
        ensures QueriesOk(files[j], c, |c.questions|, modelA, modelB, AsWritten)
      {
        QueriesOkEach(files[j], c, |c.questions|, modelA, modelB, Intended);
        QueriesOkEach(files[j], c, |c.questions|, modelA, modelB, AsWritten);
        forall k | 0 <= k < |c.questions|
          ensures PairOk(files[j], c, c.questions[k], modelA, modelB, AsWritten)
        {
          var ori := OriKey(CategoryName(c), c.questions[k], modelA, modelB);
          var rev := RevKey(CategoryName(c), c.questions[k], modelA, modelB);
          IntendedPassesAsWritten(files[j][ori], files[j][rev]);
        }
      }
    }
  }

  /**
   * Under the intended check every judgement the tally counts has a valid
   * verdict for every metric in both orders, so each of its votes follows
   * the judge.
   */
  lemma CountedVerdictsValid(cats: seq<Category>, files: seq<ResultFile>, modelA: string, modelB: string,
                             i: nat, j: nat, k: nat)
    requires AllOk(cats, files, |cats|, modelA, modelB, Intended)
    requires i < |cats| && j < |files| && k < |cats[i].questions|
    ensures var ori := OriKey(CategoryName(cats[i]), cats[i].questions[k], modelA, modelB);
            var rev := RevKey(CategoryName(cats[i]), cats[i].questions[k], modelA, modelB);
            ori in files[j] && rev in files[j] && WinnersValid(files[j][ori], files[j][rev])
  {
    AllOkEach(cats, files, |cats|, modelA, modelB, Intended);
    FilesOkEach(files, cats[i], |files|, modelA, modelB, Intended);
    QueriesOkEach(files[j], cats[i], |cats[i].questions|, modelA, modelB, Intended);
  }

  /** A "Tie" for comprehensiveness in the original order, "Answer 1" everywhere else. */
  const TieFirst: Judgement := map[Comprehensiveness := "Tie", Empowerment := "Answer 1", Trustworthiness := "Answer 1",
                                   Depth := "Answer 1", Density := "Answer 1", OverallWinner := "Answer 1"]

  /** "Answer 1" for every metric. */
  const AllFirst: Judgement := map[Comprehensiveness := "Answer 1", Empowerment := "Answer 1", Trustworthiness := "Answer 1",
                                   Depth := "Answer 1", Density := "Answer 1", OverallWinner := "Answer 1"]

  /** The "Tie" judgement passes the script's check but not the intended one, and its comprehensiveness votes both go to the second system. */
  lemma TiePassesAsWritten()
    ensures Passes(AsWritten, TieFirst, AllFirst) && !Passes(Intended, TieFirst, AllFirst)
    ensures At(PairVector(TieFirst, AllFirst), Comprehensiveness) == Tally(0, 2)
  {
    CheckMissesOtherMetrics(TieFirst, AllFirst);
    MetricsCover(TieFirst);
    MetricsCover(AllFirst);
    TieVotesForSecond(TieFirst, AllFirst);
  }

  lemma TieMentionsNoOne()
    ensures MentionsOne("Tie") == 0
  {
    var t := "Tie";
    assert t[1..][1..][1..] == [];
    assert MentionsOne(t[1..][1..]) == 0;
  }

  /** A "Tie" in the original order and "Answer 1" in the reversed one: both votes go to the second system. */
  lemma TieVotesForSecond(ori: Judgement, rev: Judgement)
    requires Comprehensiveness in ori && ori[Comprehensiveness] == "Tie"
    requires Comprehensiveness in rev && rev[Comprehensiveness] == "Answer 1"
    ensures At(PairVector(ori, rev), Comprehensiveness) == Tally(0, 2)
  {
    var tie, first := WinnerOf(ori, Comprehensiveness), WinnerOf(rev, Comprehensiveness);
    OrderVectorAt(ori, false, Comprehensiveness);
    OrderVectorAt(rev, true, Comprehensiveness);
    VecPlusAt(OrderVector(ori, false), OrderVector(rev, true), Comprehensiveness);
    TieMentionsNoOne();
    VerdictMentionsOne(first);
    assert OriVote(tie) == Tally(0, 1) && RevVote(first) == Tally(0, 1);
  }

  /** A dataset of one category with one question in one result file is counted as that question is. */
  lemma OneQuestionTally(c: Category, file: ResultFile, modelA: string, modelB: string, check: Check)
    requires |c.questions| == 1
    ensures AllOk([c], [file], 1, modelA, modelB, check) <==> PairOk(file, c, c.questions[0], modelA, modelB, check)
    ensures forall m :: At(CatsVotes([c], [file], 1, modelA, modelB), m) == At(QueryVotes(file, c, c.questions[0], modelA, modelB), m)
  {
    assert QueriesOk(file, c, 1, modelA, modelB, check) <==> PairOk(file, c, c.questions[0], modelA, modelB, check);
    assert FilesOk([file], c, 1, modelA, modelB, check) <==> QueriesOk(file, c, 1, modelA, modelB, check);
    assert AllOk([c], [file], 1, modelA, modelB, check) <==> FilesOk([file], c, 1, modelA, modelB, check);
    var v := QueryVotes(file, c, c.questions[0], modelA, modelB);
    assert QueriesVotes(file, c, 1, modelA, modelB) == VecPlus(NoVotes, v);
    assert FilesVotes([file], c, 1, modelA, modelB) == VecPlus(NoVotes, VecPlus(NoVotes, v));
    forall m
      ensures At(CatsVotes([c], [file], 1, modelA, modelB), m) == At(v, m)
    {
      VecPlusAt(NoVotes, v, m);
      VecPlusAt(NoVotes, VecPlus(NoVotes, v), m);
      VecPlusAt(NoVotes, VecPlus(NoVotes, VecPlus(NoVotes, v)), m);
    }
  }

  /**
   * A dataset of one question judged once: as written the tally accepts
   * the "Tie" and counts it, together with the reversed order's verdict,
   * as two comprehensiveness votes for the second system; the intended
   * check refuses the dataset.
   */
  lemma TieCountedAsWritten(c: Category, file: ResultFile, modelA: string, modelB: string)
    requires |c.questions| == 1 && FindDomain(c.domain).Some?
    requires file == map[OriKey(CategoryName(c), c.questions[0], modelA, modelB) := TieFirst,
                         RevKey(CategoryName(c), c.questions[0], modelA, modelB) := AllFirst]
    ensures AllOk([c], [file], 1, modelA, modelB, AsWritten)
    ensures !AllOk([c], [file], 1, modelA, modelB, Intended)
    ensures At(CatsVotes([c], [file], 1, modelA, modelB), Comprehensiveness) == Tally(0, 2)
  {
    var q := c.questions[0];
    KeysEndApart(CategoryName(c), q, modelA, modelB);
    TiePassesAsWritten();
    OneQuestionTally(c, file, modelA, modelB, AsWritten);
    OneQuestionTally(c, file, modelA, modelB, Intended);
    assert QueryVotes(file, c, q, modelA, modelB) == PairVector(TieFirst, AllFirst);
  }
}
