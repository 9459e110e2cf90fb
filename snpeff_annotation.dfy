/**
 * The interpreter of one SnpEff `ANN` record: a '|'-separated line whose fields
 * follow SnpEff's "VCF annotation format v1.0", with '&'-separated tag lists and
 * "x/y" position fields. `Parse` is the constructor of the source's annotation
 * class as written; `ParseStandard` is the same interpretation laid out as the
 * format intends (see the README's findings).
 */
module SnpEffAnnotation {
  import opened Wrappers
  import opened Strings

  /** One parsed annotation; every property is assigned once and never changed. */
  datatype Annotation = Annotation(
    allele: string,
    effects: seq<string>,
    putativeImpact: string,
    geneName: string,
    geneId: string,
    featureType: string,
    featureId: string,
    transcriptBiotype: string,
    exonIntronRank: int,
    exonIntronTotal: int,
    hgvsNotationDnaLevel: string,
    hgvsNotationProteinLevel: Option<string>,
    oneBasedTranscriptCdnaPosition: int,
    transcriptCdnaLength: int,
    oneBasedCodingDomainSequencePosition: int,
    codingDomainSequenceLengthIncludingStopCodon: int,
    oneBasedProteinPosition: int,
    proteinLength: int,
    distanceToFeature: int,
    warnings: seq<string>,
    synonymous: bool,
    frameshiftVariant: bool,
    badTranscript: bool)

  /** Reading a field past the end of the split line (an `IndexOutOfRangeException`). */
  datatype ParseError = FieldIndexOutOfRange

  /** Effect tags that change the protein sequence. */
  const NonSynonymousVariations: seq<string> := [
    "exon_loss_variant",
    "frameshift_variant",
    "rare_amino_acid_variant",
    "start_lost",
    "stop_gained",
    "stop_lost",
    "conservative_inframe_insertion",
    "conservative_inframe_deletion",
    "disruptive_inframe_deletion",
    "disruptive_inframe_insertion",
    "inframe_deletion",
    "inframe_insertion",
    "missense_variant"
  ]

  /** Warnings marking a transcript whose translation cannot be trusted. */
  const BadTranscriptWarnings: seq<string> := [
    "WARNING_TRANSCRIPT_INCOMPLETE",
    "WARNING_TRANSCRIPT_MULTIPLE_STOP_CODONS",
    "WARNING_TRANSCRIPT_NO_STOP_CODON",
    "WARNING_TRANSCRIPT_NO_START_CODON"
  ]

  /** `tags.Any(t => wanted.Contains(t))`. */
  predicate AnyIn(tags: seq<string>, wanted: seq<string>)
  {
    exists i :: 0 <= i < |tags| && tags[i] in wanted
  }

  /** The value `int.TryParse` gives a property: the parsed number, or the default 0. */
  function ParsedOrZero(s: string): int
  {
    match ParseInt(s)
    case Some(v) => v
    case None => 0
  }

  /** Half `k` (0 or 1) of an "x/y" field, or 0 when that half is missing or not a number. */
  function HalfOrZero(field: string, k: nat): int
  {
    var halves := Split(field, '/');
    if |halves| > k then ParsedOrZero(halves[k]) else 0
  }

  /** The line's '|'-separated fields. */
  function Fields(annotation: string): seq<string>
  {
    Split(annotation, '|')
  }

  /** The constructor as written: fields 0 to 14, with HGVS.p never read. */
  function Parse(annotation: string): (r: Result<Annotation, ParseError>)
    ensures r.Success? <==> Count(annotation, '|') >= 14
  {
    var a := Fields(annotation);
    if |a| < 15 then Failure(FieldIndexOutOfRange)
    else
      var effects := Split(a[1], '&');
      var warnings := Split(a[14], '&');
      Success(Annotation(
        allele := a[0],
        effects := effects,
        putativeImpact := a[2],
        geneName := a[3],
        geneId := a[4],
        featureType := a[5],
        featureId := a[6],
        transcriptBiotype := a[7],
        exonIntronRank := HalfOrZero(a[8], 0),
        exonIntronTotal := HalfOrZero(a[8], 1),
        hgvsNotationDnaLevel := a[9],
        hgvsNotationProteinLevel := None,
        oneBasedTranscriptCdnaPosition := HalfOrZero(a[10], 0),
        transcriptCdnaLength := HalfOrZero(a[10], 1),
        oneBasedCodingDomainSequencePosition := HalfOrZero(a[11], 0),
        codingDomainSequenceLengthIncludingStopCodon := HalfOrZero(a[11], 1),
        oneBasedProteinPosition := HalfOrZero(a[12], 0),
        proteinLength := HalfOrZero(a[12], 1),
        distanceToFeature := ParsedOrZero(a[13]),
        warnings := warnings,
        synonymous := AnyIn(effects, NonSynonymousVariations),
        frameshiftVariant := "frameshift_variant" in effects,
        badTranscript := AnyIn(warnings, BadTranscriptWarnings)))
  }

  /**
   * The interpretation the format intends: sixteen fields, HGVS.p in field 10,
   * the three "x/y" positions in fields 11 to 13, the distance in 14, the
   * warnings in 15, and `synonymous` meaning that no effect is non-synonymous.
   */
  function ParseStandard(annotation: string): (r: Result<Annotation, ParseError>)
    ensures r.Success? <==> Count(annotation, '|') >= 15
  {
    var a := Fields(annotation);
    if |a| < 16 then Failure(FieldIndexOutOfRange)
    else
      var effects := Split(a[1], '&');
      var warnings := Split(a[15], '&');
      Success(Annotation(
        allele := a[0],
        effects := effects,
        putativeImpact := a[2],
        geneName := a[3],
        geneId := a[4],
        featureType := a[5],
        featureId := a[6],
        transcriptBiotype := a[7],
        exonIntronRank := HalfOrZero(a[8], 0),
        exonIntronTotal := HalfOrZero(a[8], 1),
        hgvsNotationDnaLevel := a[9],
        hgvsNotationProteinLevel := Some(a[10]),
        oneBasedTranscriptCdnaPosition := HalfOrZero(a[11], 0),
        transcriptCdnaLength := HalfOrZero(a[11], 1),
        oneBasedCodingDomainSequencePosition := HalfOrZero(a[12], 0),
        codingDomainSequenceLengthIncludingStopCodon := HalfOrZero(a[12], 1),
        oneBasedProteinPosition := HalfOrZero(a[13], 0),
        proteinLength := HalfOrZero(a[13], 1),
        distanceToFeature := ParsedOrZero(a[14]),
        warnings := warnings,
        synonymous := !AnyIn(effects, NonSynonymousVariations),
        frameshiftVariant := "frameshift_variant" in effects,
        badTranscript := AnyIn(warnings, BadTranscriptWarnings)))
  }

  /** Separator-free fields, at least fifteen of them, as found in a record. */
  predicate RecordFields(fields: seq<string>)
  {
    |fields| >= 15 && forall i :: 0 <= i < |fields| ==> '|' !in fields[i]
  }

  /**
   * Parsing the join of the fields recovers them: fields 0, 2-7 and 9 verbatim,
   * the '&'-lists of fields 1 and 14 piece by piece, HGVS.p unset, a flag for
   * frameshift; fields past index 14 have no effect on the result.
   */
  lemma ParseJoined(fields: seq<string>)
    requires RecordFields(fields)
    ensures Parse(Join(fields, "|")).Success?
    ensures var r := Parse(Join(fields, "|")).value;
      && r.allele == fields[0] && r.putativeImpact == fields[2]
      && r.geneName == fields[3] && r.geneId == fields[4]
      && r.featureType == fields[5] && r.featureId == fields[6]
      && r.transcriptBiotype == fields[7] && r.hgvsNotationDnaLevel == fields[9]
      && r.hgvsNotationProteinLevel == None
      && Join(r.effects, "&") == fields[1] && (forall i :: 0 <= i < |r.effects| ==> '&' !in r.effects[i])
      && Join(r.warnings, "&") == fields[14] && (forall i :: 0 <= i < |r.warnings| ==> '&' !in r.warnings[i])
      && (r.frameshiftVariant <==> exists i :: 0 <= i < |r.effects| && r.effects[i] == "frameshift_variant")
  {
    SplitJoin(fields, '|');
    JoinSplit(fields[1], '&');
    JoinSplit(fields[14], '&');
  }

  /** Fields after the fifteenth are never read: the record is that of the first fifteen. */
  lemma ParseIgnoresExtraFields(fields: seq<string>)
    requires RecordFields(fields)
    ensures Parse(Join(fields, "|")) == Parse(Join(fields[..15], "|"))
  {
    SplitJoin(fields, '|');
    assert RecordFields(fields[..15]);
    SplitJoin(fields[..15], '|');
  }

  /** An empty tag list still yields exactly one (empty) tag. */
  lemma EmptyTagList()
    ensures Split("", '&') == [""]
  {
  }

  /**
   * The two halves of an "x/y" field are read independently: each half is its
   * own number or 0, whatever the other half holds.
   */
  lemma HalvesIndependent(x: string, y: string)
    requires '/' !in x && '/' !in y
    ensures HalfOrZero(x + "/" + y, 0) == ParsedOrZero(x)
    ensures HalfOrZero(x + "/" + y, 1) == ParsedOrZero(y)
  {
    assert x + "/" + y == x + ['/'] + y;
    SplitConcat(x, y, '/');
    SplitNoSeparator(y, '/');
  }

  /** A field without '/' gives its number as the first half and 0 as the missing second. */
  lemma MissingSecondHalf(x: string)
    requires '/' !in x
    ensures HalfOrZero(x, 0) == ParsedOrZero(x)
    ensures HalfOrZero(x, 1) == 0
  {
    SplitNoSeparator(x, '/');
  }

  /** A distance field holding an "x/y" pair is not a number, so the distance stays 0. */
  lemma DistanceWithSlashIsZero(field: string, k: nat)
    requires 0 < k < |field| && field[k] == '/'
    ensures ParsedOrZero(field) == 0
  {
    ParseIntRejects(field, k);
  }

  /** `frameshiftVariant` holds exactly when some effect is the frameshift tag. */
  lemma FrameshiftIffTag(annotation: string)
    requires Parse(annotation).Success?
    ensures Parse(annotation).value.frameshiftVariant
        <==> exists i :: 0 <= i < |Parse(annotation).value.effects|
                      && Parse(annotation).value.effects[i] == "frameshift_variant"
  {
    var e := Parse(annotation).value.effects;
    if "frameshift_variant" in e {
      var i :| 0 <= i < |e| && e[i] == "frameshift_variant";
    }
  }

  /**
   * The as-written `synonymous` flag holds exactly when some effect is a
   * non-synonymous one, so a missense effect makes it true.
   */
  lemma SynonymousAsWritten(annotation: string)
    requires Parse(annotation).Success?
    ensures var r := Parse(annotation).value;
      r.synonymous <==> exists i :: 0 <= i < |r.effects| && r.effects[i] in NonSynonymousVariations
    ensures var r := Parse(annotation).value;
      "missense_variant" in r.effects ==> r.synonymous
  {
    var r := Parse(annotation).value;
    if "missense_variant" in r.effects {
      var i :| 0 <= i < |r.effects| && r.effects[i] == "missense_variant";
      assert r.effects[i] in NonSynonymousVariations;
    }
  }

  /** With the intended reading, a missense effect makes the record non-synonymous. */
  lemma StandardSynonymousMeansNoChange(annotation: string)
    requires ParseStandard(annotation).Success?
    ensures var r := ParseStandard(annotation).value;
      r.synonymous <==> forall i :: 0 <= i < |r.effects| ==> r.effects[i] !in NonSynonymousVariations
    ensures var r := ParseStandard(annotation).value;
      "missense_variant" in r.effects ==> !r.synonymous
  {
    var r := ParseStandard(annotation).value;
    if "missense_variant" in r.effects {
      var i :| 0 <= i < |r.effects| && r.effects[i] == "missense_variant";
      assert r.effects[i] in NonSynonymousVariations;
    }
  }

  /** An "x/y" field printed from two numbers is read back as those two numbers. */
  lemma PairRoundTrip(x: int, y: int)
    ensures HalfOrZero(IntToString(x) + "/" + IntToString(y), 0) == x
    ensures HalfOrZero(IntToString(x) + "/" + IntToString(y), 1) == y
  {
    NoSlashInNumber(x);
    NoSlashInNumber(y);
    HalvesIndependent(IntToString(x), IntToString(y));
    ParseIntToString(x);
    ParseIntToString(y);
  }

  /** The printed form of an "x/y" pair of numbers. */
  function PairField(x: int, y: int): string
  {
    IntToString(x) + "/" + IntToString(y)
  }

  /**
   * The effect and warning fields hold '&'-joined tag lists: the parser gives the
   * lists back, `synonymous` holds iff some effect is non-synonymous, `frameshiftVariant`
   * iff some effect is the frameshift tag, `badTranscript` iff some warning is a
   * bad-transcript warning.
   */
  lemma TagLists(fields: seq<string>, effects: seq<string>, warnings: seq<string>)
    requires RecordFields(fields)
    requires |effects| >= 1 && forall i :: 0 <= i < |effects| ==> '&' !in effects[i]
    requires |warnings| >= 1 && forall i :: 0 <= i < |warnings| ==> '&' !in warnings[i]
    requires fields[1] == Join(effects, "&") && fields[14] == Join(warnings, "&")
    ensures Parse(Join(fields, "|")).Success?
    ensures var r := Parse(Join(fields, "|")).value;
      && r.effects == effects && r.warnings == warnings
      && (r.synonymous <==> exists i :: 0 <= i < |effects| && effects[i] in NonSynonymousVariations)
      && (r.frameshiftVariant <==> exists i :: 0 <= i < |effects| && effects[i] == "frameshift_variant")
      && (r.badTranscript <==> exists i :: 0 <= i < |warnings| && warnings[i] in BadTranscriptWarnings)
  {
    SplitJoin(fields, '|');
    SplitJoin(effects, '&');
    SplitJoin(warnings, '&');
    var r := Parse(Join(fields, "|")).value;
    if r.frameshiftVariant {
      var i :| 0 <= i < |effects| && effects[i] == "frameshift_variant";
    }
  }

  /** A printed "x/y" pair is not itself a number. */
  lemma PairNotNumber(x: int, y: int)
    ensures ParsedOrZero(PairField(x, y)) == 0
  {
    NatToStringDigits(if x < 0 then -x else x);
    var k := |IntToString(x)|;
    assert PairField(x, y)[k] == '/';
    DistanceWithSlashIsZero(PairField(x, y), k);
  }

  /**
   * In a record laid out as the format defines it (HGVS.p in field 10, three
   * "x/y" pairs in fields 11 to 13), the parser as written reads the cDNA pair
   * from the HGVS.p text (0/0), takes the cDNA pair for the CDS pair and the CDS
   * pair for the protein pair, and finds no number in the protein pair it takes
   * for the distance.
   */
  lemma ShiftedPositions(fields: seq<string>, x1: int, y1: int, x2: int, y2: int, x3: int, y3: int)
    requires RecordFields(fields) && |fields| >= 16
    requires '/' !in fields[10] && ParseInt(fields[10]) == None
    requires fields[11] == PairField(x1, y1) && fields[12] == PairField(x2, y2)
    requires fields[13] == PairField(x3, y3)
    ensures Parse(Join(fields, "|")).Success?
    ensures var r := Parse(Join(fields, "|")).value;
      && r.oneBasedTranscriptCdnaPosition == 0 && r.transcriptCdnaLength == 0
      && r.oneBasedCodingDomainSequencePosition == x1 && r.codingDomainSequenceLengthIncludingStopCodon == y1
      && r.oneBasedProteinPosition == x2 && r.proteinLength == y2
      && r.distanceToFeature == 0
  {
    SplitJoin(fields, '|');
    MissingSecondHalf(fields[10]);
    PairRoundTrip(x1, y1);
    PairRoundTrip(x2, y2);
    PairNotNumber(x3, y3);
  }

  /** The intended reading of the same record gets HGVS.p and all three pairs right. */
  lemma StandardPositions(fields: seq<string>, x1: int, y1: int, x2: int, y2: int, x3: int, y3: int)
    requires RecordFields(fields) && |fields| >= 16
    requires fields[11] == PairField(x1, y1) && fields[12] == PairField(x2, y2)
    requires fields[13] == PairField(x3, y3)
    ensures ParseStandard(Join(fields, "|")).Success?
    ensures var r := ParseStandard(Join(fields, "|")).value;
      && r.hgvsNotationProteinLevel == Some(fields[10])
      && r.oneBasedTranscriptCdnaPosition == x1 && r.transcriptCdnaLength == y1
      && r.oneBasedCodingDomainSequencePosition == x2 && r.codingDomainSequenceLengthIncludingStopCodon == y2
      && r.oneBasedProteinPosition == x3 && r.proteinLength == y3
  {
    SplitJoin(fields, '|');
    PairRoundTrip(x1, y1);
    PairRoundTrip(x2, y2);
    PairRoundTrip(x3, y3);
  }

  /**
   * The intended reading takes the distance from field 14 and the '&'-joined
   * warnings from field 15: both come back, and the transcript is bad exactly
   * when some warning is a bad-transcript warning.
   */
  lemma StandardDistanceAndWarnings(fields: seq<string>, d: int, warnings: seq<string>)
    requires RecordFields(fields) && |fields| >= 16
    requires fields[14] == IntToString(d)
    requires |warnings| >= 1 && forall i :: 0 <= i < |warnings| ==> '&' !in warnings[i]
    requires fields[15] == Join(warnings, "&")
    ensures ParseStandard(Join(fields, "|")).Success?
    ensures var r := ParseStandard(Join(fields, "|")).value;
      && r.distanceToFeature == d
      && r.warnings == warnings
      && (r.badTranscript <==> exists i :: 0 <= i < |warnings| && warnings[i] in BadTranscriptWarnings)
  {
    SplitJoin(fields, '|');
    SplitJoin(warnings, '&');
    ParseIntToString(d);
  }

  /**
   * A missense record "A|missense_variant|MODERATE|G|E|transcript|T|
   * protein_coding|3/8|c.100A>T|p.K34N|100/800|90/700|30/233||", with its other
   * fields left free: the rank pair is read right, the cDNA pair is 0/0, the CDS
   * and protein pairs are the record's cDNA and CDS pairs, the distance is 0, and
   * the missense effect sets `synonymous`.
   */
  lemma MissenseRecordExample(fields: seq<string>)
    requires RecordFields(fields) && |fields| == 16
    requires fields[1] == "missense_variant" && fields[8] == "3/8" && fields[10] == "p.K34N"
    requires fields[11] == "100/800" && fields[12] == "90/700" && fields[13] == "30/233" && fields[14] == ""
    ensures var r := Parse(Join(fields, "|"));
      && r.Success?
      && r.value.exonIntronRank == 3 && r.value.exonIntronTotal == 8
      && r.value.oneBasedTranscriptCdnaPosition == 0 && r.value.transcriptCdnaLength == 0
      && r.value.oneBasedCodingDomainSequencePosition == 100 && r.value.codingDomainSequenceLengthIncludingStopCodon == 800
      && r.value.oneBasedProteinPosition == 90 && r.value.proteinLength == 700
      && r.value.distanceToFeature == 0
      && r.value.effects == ["missense_variant"] && r.value.synonymous && !r.value.badTranscript
  {
    WorkedPairs(fields[8], fields[11], fields[12], fields[13]);
    assert '/' !in fields[10] && ParseInt(fields[10]) == None by {
      ParseIntRejects(fields[10], 1);
    }
    ShiftedPositions(fields, 100, 800, 90, 700, 30, 233);
    SplitJoin(fields, '|');
    PairRoundTrip(3, 8);
    SingleTag(fields[1]);
    SynonymousAsWritten(Join(fields, "|"));
    NoWarningIsGood(fields[14]);
  }

  /** An empty warnings field marks nothing bad. */
  lemma NoWarningIsGood(w: string)
    requires w == ""
    ensures !AnyIn(Split(w, '&'), BadTranscriptWarnings)
  {
    assert Split(w, '&') == [""];
  }

  /** The missense tag is a one-tag list. */
  lemma SingleTag(t: string)
    requires t == "missense_variant"
    ensures Split(t, '&') == ["missense_variant"]
  {
    SplitNoSeparator(t, '&');
  }

  /** The missense record's "x/y" fields are the printed pairs of their numbers. */
  lemma WorkedPairs(rank: string, cdna: string, cds: string, protein: string)
    requires rank == "3/8" && cdna == "100/800" && cds == "90/700" && protein == "30/233"
    ensures rank == PairField(3, 8) && cdna == PairField(100, 800)
    ensures cds == PairField(90, 700) && protein == PairField(30, 233)
  {
    assert NatToString(10) == "10" && NatToString(80) == "80";
    assert NatToString(23) == "23" && NatToString(70) == "70";
  }

  /** A transcript warning marks the transcript bad, whatever the effects are. */
  lemma BadTranscriptExample(fields: seq<string>)
    requires RecordFields(fields) && |fields| == 15 && fields[14] == "WARNING_TRANSCRIPT_NO_STOP_CODON"
    ensures Parse(Join(fields, "|")).Success? && Parse(Join(fields, "|")).value.badTranscript
  {
    SplitJoin(fields, '|');
    NoStopCodonIsBad(fields[14]);
  }

  /** The missing stop codon warning is one of the bad-transcript warnings. */
  lemma NoStopCodonIsBad(w: string)
    requires w == "WARNING_TRANSCRIPT_NO_STOP_CODON"
    ensures AnyIn(Split(w, '&'), BadTranscriptWarnings)
  {
    SplitNoSeparator(w, '&');
    assert Split(w, '&')[0] == BadTranscriptWarnings[2];
  }
}
