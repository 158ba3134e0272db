/** The ten mock analysis records the history page mounts with, and the
    character facts about them that the search spot check needs. */
module HistoryFixture {

  /** One analysis record. `date` is the timestamp written as the number
      yyyymmddhhmm, which orders records the way their dates do. */
  datatype Record = Record(
    id: int,
    date: int,
    patientId: string,
    filename: string,
    tumorType: string,
    confidence: real,
    status: string,
    notes: string)

  /** The mock history the page mounts with, one constant per record. The
      file names and notes are written as concatenations of short pieces,
      which keeps the character facts below cheap to prove. */
  const Rec1: Record := Record(
    1, 202401151030, "PT-2024-001",
    "brain_mri_" + "axial_t1.jpg",
    "glioma", 94.2, "completed",
    "High-grade " + "glioma " + "detected in " + "left " + "frontal lobe")
  const Rec2: Record := Record(
    2, 202401141415, "PT-2024-002",
    "mri_scan_" + "sagittal_" + "t2.png",
    "meningioma", 87.6, "completed",
    "Meningioma " + "identified " + "in right " + "parietal " + "region")
  const Rec3: Record := Record(
    3, 202401140945, "PT-2024-003",
    "brain_scan_" + "coronal_" + "flair.jpg",
    "pituitary", 91.3, "completed",
    "Pituitary " + "adenoma " + "detected")
  const Rec4: Record := Record(
    4, 202401131620, "PT-2024-004",
    "normal_" + "brain_" + "mri.png",
    "no_tumor", 96.8, "completed",
    "No tumor " + "detected - " + "normal " + "brain " + "anatomy")
  const Rec5: Record := Record(
    5, 202401131130, "PT-2024-005",
    "complex_" + "case_multi_" + "sequence.jpg",
    "glioma", 89.4, "pending",
    "Complex " + "case " + "requiring " + "radiologist " + "review")
  const Rec6: Record := Record(
    6, 202401121345, "PT-2024-006",
    "pediatric_" + "brain_" + "scan.png",
    "meningioma", 82.1, "completed",
    "Pediatric " + "case - " + "small " + "meningioma")
  const Rec7: Record := Record(
    7, 202401120815, "PT-2024-007",
    "emergency_" + "scan_" + "trauma.jpg",
    "no_tumor", 93.7, "completed",
    "Emergency " + "scan - no " + "tumor, " + "trauma-" + "related " + "changes")
  const Rec8: Record := Record(
    8, 202401111530, "PT-2024-008",
    "follow_up_" + "post_" + "surgery.png",
    "glioma", 76.3, "failed",
    "Analysis " + "failed - " + "image " + "quality " + "issues")
  const Rec9: Record := Record(
    9, 202401111000, "PT-2024-009",
    "research_" + "volunteer_" + "scan.jpg",
    "pituitary", 88.9, "completed",
    "Research " + "study " + "participant")
  const Rec10: Record := Record(
    10, 202401101445, "PT-2024-010",
    "routine_" + "screening_" + "mri.png",
    "no_tumor", 95.2, "completed",
    "Routine " + "screening - " + "normal " + "findings")

  const Fixture: seq<Record> := [Rec1, Rec2, Rec3, Rec4, Rec5, Rec6, Rec7, Rec8, Rec9, Rec10]

  /** The shape of a record that cannot match "pt-2024-008": no '0' in its
      file name or notes, and an eleven-character patient id not ending in '8'. */
  predicate Unlike8(r: Record) {
    && '0' !in r.filename
    && '0' !in r.notes
    && |r.patientId| == 11
    && r.patientId[10] != '8'
  }

  lemma Rec1Unlike8()
    ensures Unlike8(Rec1)
  {
  }

  lemma Rec2Unlike8()
    ensures Unlike8(Rec2)
  {
  }

  lemma Rec3Unlike8()
    ensures Unlike8(Rec3)
  {
  }

  lemma Rec4Unlike8()
    ensures Unlike8(Rec4)
  {
  }

  lemma Rec5Unlike8()
    ensures Unlike8(Rec5)
  {
  }

  lemma Rec6Unlike8()
    ensures Unlike8(Rec6)
  {
  }

  lemma Rec7Unlike8()
    ensures Unlike8(Rec7)
  {
    assert '0' !in Rec7.filename;
    assert '0' !in "Emergency " + "scan - no " + "tumor, ";
    assert '0' !in "trauma-" + "related " + "changes";
  }

  lemma Rec9Unlike8()
    ensures Unlike8(Rec9)
  {
  }

  lemma Rec10Unlike8()
    ensures Unlike8(Rec10)
  {
  }
}
