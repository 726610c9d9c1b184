/** `generate_submissions`: the join of metadata records with the sequences read from FASTA. */
module Submissions {
  import opened Wrappers
  import opened Json
  import opened Enums
  import opened Models

  /** The metadata items that have a sequence, in input order. */
  function Kept(metadata: seq<Metadata>, sequences: map<string, string>): (r: seq<Metadata>)
    ensures |r| <= |metadata|
    ensures forall i | 0 <= i < |r| :: VirusName(r[i]) in sequences
  {
    if metadata == [] then []
    else
      var rest := Kept(metadata[..|metadata| - 1], sequences);
      var item := metadata[|metadata| - 1];
      if VirusName(item) in sequences then rest + [item] else rest
  }

  /** The submission made from a kept item: its fields, its sequence, the confirmation and the
      default version tag. */
  function Submit(item: Metadata, sequences: map<string, string>, confirmation: FrameshiftsConfirmation): Submission
    requires VirusName(item) in sequences
  {
    Submission(item, sequences[VirusName(item)], confirmation, DefaultSt)
  }

  /** What `generate_submissions` returns. */
  function Join(metadata: seq<Metadata>, sequences: map<string, string>, confirmation: FrameshiftsConfirmation): seq<Submission> {
    if metadata == [] then []
    else
      var rest := Join(metadata[..|metadata| - 1], sequences, confirmation);
      var item := metadata[|metadata| - 1];
      if VirusName(item) in sequences then rest + [Submit(item, sequences, confirmation)] else rest
  }

  /** The names of the items that found a sequence (`covv_virus_names`). */
  function KeptNames(metadata: seq<Metadata>, sequences: map<string, string>): set<string> {
    if metadata == [] then {}
    else
      var rest := KeptNames(metadata[..|metadata| - 1], sequences);
      var name := VirusName(metadata[|metadata| - 1]);
      if name in sequences then rest + {name} else rest
  }

  /** The names of all metadata items. */
  function Names(metadata: seq<Metadata>): set<string> {
    set i | 0 <= i < |metadata| :: VirusName(metadata[i])
  }

  /** `item.model_dump() | {"covv_sequence": ..., "subm_confirmed": ...}`. */
  function JoinedRow(item: Metadata, sequence: string, confirmation: FrameshiftsConfirmation): Object {
    item + map["covv_sequence" := JString(sequence), "subm_confirmed" := JString(confirmation.Value())]
  }

  /** The metadata part of the row built for a kept item validates to the item. */
  lemma JoinedRowMetadata(item: Metadata, sequence: string, confirmation: FrameshiftsConfirmation)
    ensures MetadataFromRow(JoinedRow(item, sequence, confirmation)) == Success(item)
  {
    var extra := map["covv_sequence" := JString(sequence), "subm_confirmed" := JString(confirmation.Value())];
    SequenceKeyIsNotMetadata();
    ConfirmedKeyIsNotMetadata();
    assert extra.Keys == {"covv_sequence", "subm_confirmed"};
    MetadataWithExtras(item, extra);
  }

  /** The row built for a kept item holds the sequence and the confirmation value, and no `st`. */
  lemma JoinedRowFields(item: Metadata, sequence: string, confirmation: FrameshiftsConfirmation)
    ensures var row := JoinedRow(item, sequence, confirmation);
      && "covv_sequence" in row && row["covv_sequence"] == JString(sequence)
      && "subm_confirmed" in row && row["subm_confirmed"] == JString(confirmation.Value())
      && "st" !in row
  {
    StKeyIsNotMetadata();
  }

  /** `Submission.model_validate(data)` never fails on the row built for a kept item, and gives
      the item's fields, the sequence, the confirmation and the default `st`. */
  lemma JoinedRowValidates(item: Metadata, sequence: string, confirmation: FrameshiftsConfirmation)
    ensures SubmissionFromRow(JoinedRow(item, sequence, confirmation))
         == Success(Submission(item, sequence, confirmation, DefaultSt))
  {
    JoinedRowMetadata(item, sequence, confirmation);
    JoinedRowFields(item, sequence, confirmation);
    SubmissionFromValidRow(JoinedRow(item, sequence, confirmation), item, sequence, confirmation, DefaultSt);
  }

  /** `generate_submissions`, which also hands back the names of the sequences no metadata item
      asked for (the source only logs them). */
  method GenerateSubmissions(metadata: seq<Metadata>, sequences: map<string, string>, confirmation: FrameshiftsConfirmation)
    returns (submissions: seq<Submission>, notInMeta: set<string>)
    ensures submissions == Join(metadata, sequences, confirmation)
    ensures notInMeta == sequences.Keys - KeptNames(metadata, sequences)
  {
    submissions := [];
    var covvVirusNames: set<string> := {};
    for k := 0 to |metadata|
      invariant submissions == Join(metadata[..k], sequences, confirmation)
      invariant covvVirusNames == KeptNames(metadata[..k], sequences)
    {
      var item := metadata[k];
      assert metadata[..k + 1][..k] == metadata[..k];
      if VirusName(item) !in sequences {
        continue;
      }
      covvVirusNames := covvVirusNames + {VirusName(item)};
      var data := JoinedRow(item, sequences[VirusName(item)], confirmation);
      JoinedRowValidates(item, sequences[VirusName(item)], confirmation);
      var validated := SubmissionFromRow(data);
      submissions := submissions + [validated.value];
    }
    assert metadata[..|metadata|] == metadata;
    notInMeta := sequences.Keys - covvVirusNames;
  }

  /** Filtering two runs of items is filtering each: the order of the input is kept. */
  lemma {:induction false} KeptAppend(a: seq<Metadata>, b: seq<Metadata>, sequences: map<string, string>)
    ensures Kept(a + b, sequences) == Kept(a, sequences) + Kept(b, sequences)
    decreases |b|
  {
    if b == [] {
      assert a + b == a;
    } else {
      var init := b[..|b| - 1];
      assert (a + b)[..|a + b| - 1] == a + init;
      assert (a + b)[|a + b| - 1] == b[|b| - 1];
      KeptAppend(a, init, sequences);
    }
  }

  /** An item is kept exactly as many times as it occurs when its name has a sequence, and not
      at all otherwise: nothing is deduplicated. */
  lemma {:induction false} KeptCount(metadata: seq<Metadata>, sequences: map<string, string>, x: Metadata)
    ensures multiset(Kept(metadata, sequences))[x] ==
      if VirusName(x) in sequences then multiset(metadata)[x] else 0
    decreases |metadata|
  {
    if metadata != [] {
      var init := metadata[..|metadata| - 1];
      assert metadata == init + [metadata[|metadata| - 1]];
      KeptCount(init, sequences, x);
    }
  }

  /** The i-th submission is made from the i-th kept item. */
  lemma {:induction false} JoinIsKept(metadata: seq<Metadata>, sequences: map<string, string>, confirmation: FrameshiftsConfirmation)
    ensures |Join(metadata, sequences, confirmation)| == |Kept(metadata, sequences)|
    ensures forall i | 0 <= i < |Kept(metadata, sequences)| ::
      Join(metadata, sequences, confirmation)[i] == Submit(Kept(metadata, sequences)[i], sequences, confirmation)
    decreases |metadata|
  {
    if metadata != [] {
      JoinIsKept(metadata[..|metadata| - 1], sequences, confirmation);
    }
  }

  /** Each submission carries its item's fields unchanged, the sequence of that name, the given
      confirmation and the default version tag. */
  lemma SubmissionContents(metadata: seq<Metadata>, sequences: map<string, string>, confirmation: FrameshiftsConfirmation, i: int)
    requires 0 <= i < |Kept(metadata, sequences)|
    ensures i < |Join(metadata, sequences, confirmation)|
    ensures var s, item := Join(metadata, sequences, confirmation)[i], Kept(metadata, sequences)[i];
      && s.meta == item
      && VirusName(item) in sequences && s.covvSequence == sequences[VirusName(item)]
      && s.submConfirmed == confirmation
      && s.st == DefaultSt
  {
    JoinIsKept(metadata, sequences, confirmation);
  }

  /** An item whose name has no sequence produces no submission. */
  lemma UnmatchedItemSkipped(a: seq<Metadata>, x: Metadata, b: seq<Metadata>, sequences: map<string, string>)
    requires VirusName(x) !in sequences
    ensures Kept(a + [x] + b, sequences) == Kept(a + b, sequences)
  {
    KeptAppend(a + [x], b, sequences);
    KeptAppend(a, [x], sequences);
    KeptAppend(a, b, sequences);
    assert [x][..0] == [];
  }

  /** There are no more submissions than metadata items. */
  lemma JoinLength(metadata: seq<Metadata>, sequences: map<string, string>, confirmation: FrameshiftsConfirmation)
    ensures |Join(metadata, sequences, confirmation)| <= |metadata|
  {
    JoinIsKept(metadata, sequences, confirmation);
  }

  /** Adding an item adds its name. */
  lemma NamesSnoc(init: seq<Metadata>, x: Metadata)
    ensures Names(init + [x]) == Names(init) + {VirusName(x)}
  {
    var s := init + [x];
    forall n | n in Names(s) ensures n in Names(init) + {VirusName(x)} {
      var i :| 0 <= i < |s| && VirusName(s[i]) == n;
      if i < |init| {
        assert s[i] == init[i];
      }
    }
    forall n | n in Names(init) ensures n in Names(s) {
      var i :| 0 <= i < |init| && VirusName(init[i]) == n;
      assert s[i] == init[i];
    }
    assert s[|init|] == x;
  }

  /** The names collected are the names of metadata that also name a sequence. */
  lemma {:induction false} KeptNamesAreMatchedNames(metadata: seq<Metadata>, sequences: map<string, string>)
    ensures KeptNames(metadata, sequences) == Names(metadata) * sequences.Keys
    decreases |metadata|
  {
    if metadata != [] {
      var init, x := metadata[..|metadata| - 1], metadata[|metadata| - 1];
      KeptNamesAreMatchedNames(init, sequences);
      assert metadata == init + [x];
      NamesSnoc(init, x);
    }
  }

  /** The sequences reported as not in the metadata are exactly those whose name no metadata
      item carries. */
  lemma NotInMetaIsUnclaimed(metadata: seq<Metadata>, sequences: map<string, string>)
    ensures sequences.Keys - KeptNames(metadata, sequences) == sequences.Keys - Names(metadata)
  {
    KeptNamesAreMatchedNames(metadata, sequences);
  }
}
