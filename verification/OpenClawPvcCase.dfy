/** The one deletion that takes an object of another gateway, step by step:
    internal/app_openclaw_handlers.go, lines 258-263 and 593-645. */
module OpenClawPvcCase {
  import opened Text
  import opened Options
  import opened OpenClawRegistry
  import opened OpenClawRuns

  /** A gateway registered before its objects had names of their own. */
  const OLD := Instance("1", "ns", "gw", "gw", "", "", "", "", "")

  const CLAIM := Object(Pvc, "ns", OLD_PVC)

  const DEPLOY := DeployOp(Request("ns", "pvc", "pvc", "", 4, true, "2"))

  const NEW := Instance("2", "ns", "pvc", "pvc", "openclaw-home-pvc", "openclaw-secrets-pvc", "openclaw-config-pvc",
                        "openclaw-pvc", "")

  lemma TrimmedWords()
    ensures Trim("1") == "1" && Trim("2") == "2" && Trim("ns") == "ns" && Trim("gw") == "gw" && Trim("pvc") == "pvc" && Trim("") == ""
    ensures ValidLabel("pvc")
  {
  }

  lemma NewIs()
    ensures NewInstance(DEPLOY.r) == NEW
  {
    TrimmedWords();
    hide Trim;
  }

  lemma PlacesDiffer()
    ensures !SamePlace(OLD, "ns", "pvc") && !SamePlace(NEW, "ns", "gw")
  {
    TrimmedWords();
    hide Trim;
    assert Lower("gw")[0] == 'g' && Lower("pvc")[0] == 'p';
  }

  lemma NameIsTrimmed()
    ensures Trim(OLD_PVC) == OLD_PVC
  {
    assert !IsSpace(OLD_PVC[0]) && !IsSpace(OLD_PVC[|OLD_PVC| - 1]);
  }

  lemma Claims()
    ensures ObjectOf(OLD, Pvc) == CLAIM && ObjectOf(NEW, Pvc) == CLAIM
  {
    TrimmedWords();
    NameIsTrimmed();
    hide Trim;
  }

  /** Deploying "pvc" beside the old gateway and deleting it again takes the old gateway's volume
      claim, while the old gateway stays registered. */
  lemma PvcIsTakenAway()
    ensures var p0 := Platform([OLD], {CLAIM}); var p := DoAll(p0, [DEPLOY]); var after := Delete(p, "2", _ => true);
            && Inv(p0.list) && LegalRun(p0, [DEPLOY])
            && p.list == [NEW, OLD] && CLAIM in p.cluster
            && after.list == [OLD] && ObjectOf(OLD, Pvc) == CLAIM && CLAIM !in after.cluster
  {
    var p0 := Platform([OLD], {CLAIM});
    TrimmedWords();
    Deployed();
    Claims();
    Removal();
    hide Trim, ObjectOf, ObjectsOf, NewInstance, SamePlace, Deletable, ValidLabel, SkipsShared;
    assert [DEPLOY][..0] == [] && DoAll(p0, []) == p0;
    assert LegalRun(p0, []);
  }

  lemma Deployed()
    ensures Deploy(Platform([OLD], {CLAIM}), DEPLOY.r).list == [NEW, OLD]
    ensures CLAIM in Deploy(Platform([OLD], {CLAIM}), DEPLOY.r).cluster
  {
    TrimmedWords();
    NewIs();
    PlacesDiffer();
    hide Trim, NewInstance, SamePlace, ValidLabel, FirstObjects;
  }

  lemma Removal()
    ensures Without([NEW, OLD], "2") == [OLD]
    ensures Lookup([NEW, OLD], "2") == Some(NEW)
    ensures Deletable(NEW) && !SkipsShared(NEW, [NEW, OLD], "2") && CLAIM in ObjectsOf(NEW)
  {
    TrimmedWords();
    NameIsTrimmed();
    Claims();
    hide Trim;
    assert [NEW, OLD][..1] == [NEW] && [NEW][..0] == [];
    assert Without([NEW], "2") == [];
  }
}
