/**
 * The earlier Streamlit program (main.py): a base form whose
 * `generate_calendar` must be overridden, a dosage form (dose in mg) and a
 * volume form (injection amount in mL), and two metadata builders.
 */
module MainForms {
  import opened Wrappers
  import opened Text
  import opened Volumes
  import opened Schedule
  import App

  datatype BaseForm = BaseForm(name: string, hrt: string, interval: int, startDate: int)

  /** A form whose dose is given in mg. */
  datatype DosageForm = DosageForm(base: BaseForm, dose: real, totalVolume: real, concentration: real)

  /** A form whose injection amount is given in mL. */
  datatype VolumeForm = VolumeForm(base: BaseForm, injectionAmount: real, totalVolume: real)

  /** `BaseForm.generate_calendar`: always raises NotImplementedError. */
  function BaseGenerateCalendar(f: BaseForm): (r: Result<seq<Row>, string>)
    ensures r.Failure? && r.error == "Subclasses should implement this method!"
  {
    Failure("Subclasses should implement this method!")
  }

  /** The metadata record `generate_metadata` builds; only "Lasts" is text. */
  datatype Metadata = Metadata(
    name: string,
    today: string,
    doseMg: real,
    doseMl: real,
    interval: int,
    startDate: string,
    lasts: string,
    totalMl: real,
    concentration: real)

  /**
   * `generate_metadata`: the dose is taken to be in mg whatever the form,
   * and "Dose (mL)" is the dose divided by the concentration.
   */
  function GenerateMetadata(host: Host, name: string, dateFormat: string, dose: real, interval: int,
                            startDate: int, lasts: int, totalMl: real, concentration: real, today: int): (md: Metadata)
    requires concentration != 0.0
    ensures md.doseMg == dose && md.doseMl * concentration == dose
    ensures md.lasts == IntText(lasts) + " doses"
    ensures md.totalMl == totalMl && md.concentration == concentration && md.interval == interval
  {
    Metadata(name, host.strftime(dateFormat, today), dose, dose / concentration, interval,
             host.strftime(dateFormat, startDate), IntText(lasts) + " doses", totalMl, concentration)
  }

  /** The record `generate_metadata_byobj` builds: every figure is text. */
  datatype TextMetadata = TextMetadata(
    name: string,
    today: string,
    doseMg: string,
    doseMl: string,
    interval: int,
    startDate: string,
    lasts: string,
    totalMl: string,
    concentration: string)

  /**
   * `generate_metadata_byobj`: both branches on `dosetype` divide by the
   * concentration, but what they compute is never used; the record always
   * reports the dose in mg and the dose divided by the concentration in mL.
   */
  function GenerateMetadataByObj(host: Host, doseType: string, obj: DosageForm, dateFormat: string,
                                 injectionsSum: int, today: int): (md: TextMetadata)
    requires obj.concentration != 0.0
    ensures md.doseMg == host.floatText(obj.dose) + " mg"
    ensures md.doseMl == host.floatText(obj.dose / obj.concentration) + " mL"
    ensures md.lasts == IntText(injectionsSum) + " doses"
  {
    TextMetadata(obj.base.name, host.strftime(dateFormat, today),
                 host.floatText(obj.dose) + " mg", host.floatText(obj.dose / obj.concentration) + " mL",
                 obj.base.interval, host.strftime(dateFormat, obj.base.startDate),
                 IntText(injectionsSum) + " doses", host.floatText(obj.totalVolume) + " mL",
                 host.floatText(obj.concentration) + " mg/mL")
  }

  /**
   * The dose type passed to `generate_metadata_byobj` changes nothing in its
   * result: the locals its two branches assign are never read afterwards,
   * which is why `GenerateMetadataByObj` does not look at `doseType`.
   */
  lemma ByObjIgnoresDoseType(host: Host, t1: string, t2: string, obj: DosageForm, dateFormat: string,
                             injectionsSum: int, today: int)
    requires obj.concentration != 0.0
    ensures GenerateMetadataByObj(host, t1, obj, dateFormat, injectionsSum, today)
         == GenerateMetadataByObj(host, t2, obj, dateFormat, injectionsSum, today)
  {
  }

  /** The schedule parameters of a dosage form: one injection is dose / concentration mL. */
  function DosagePlan(f: DosageForm, startingSide: string): Plan
    requires f.concentration != 0.0
  {
    Plan(f.totalVolume, f.dose / f.concentration, f.base.interval, f.base.startDate, startingSide, LeftRight)
  }

  /** The schedule parameters of a volume form: one injection is the injection amount. */
  function VolumePlan(f: VolumeForm, startingSide: string): Plan
  {
    Plan(f.totalVolume, f.injectionAmount, f.base.interval, f.base.startDate, startingSide, LeftRight)
  }

  /**
   * `DosageForm.generate_calendar`: the shared loop with dose / concentration
   * mL per injection, and metadata whose "Lasts" is the final injection
   * counter, one more than the number of rows. Both are displayed.
   */
  method DosageGenerateCalendar(host: Host, f: DosageForm, dateFormat: string, startingSide: string, today: int)
    returns (md: Metadata, rows: seq<Row>)
    requires f.concentration != 0.0 && f.dose / f.concentration > 0.0
    ensures |rows| == DoseCount(f.totalVolume, f.dose / f.concentration)
    ensures forall i :: 0 <= i < |rows| ==> rows[i] == RowAt(DosagePlan(f, startingSide), i)
    ensures md == GenerateMetadata(host, f.base.name, dateFormat, f.dose, f.base.interval, f.base.startDate,
                                   |rows| + 1, f.totalVolume, f.concentration, today)
  {
    var injectionCount;
    rows, injectionCount := Generate(DosagePlan(f, startingSide));
    md := GenerateMetadata(host, f.base.name, dateFormat, f.dose, f.base.interval, f.base.startDate,
                           injectionCount, f.totalVolume, f.concentration, today);
  }

  /**
   * `VolumeForm.generate_calendar`: the shared loop with the injection amount
   * as the volume of each injection; no metadata.
   */
  method VolumeGenerateCalendar(f: VolumeForm, startingSide: string) returns (rows: seq<Row>)
    requires f.injectionAmount > 0.0
    ensures |rows| == DoseCount(f.totalVolume, f.injectionAmount)
    ensures forall i :: 0 <= i < |rows| ==> rows[i] == RowAt(VolumePlan(f, startingSide), i)
  {
    var injectionCount;
    rows, injectionCount := Generate(VolumePlan(f, startingSide));
  }

  /** `get_date_format` of main.py, a copy of app.py's that agrees with it on every input. */
  function GetDateFormat(choice: string): (format: string)
    ensures format == App.GetDateFormat(choice)
  {
    if choice == "DD/MM/YYYY" then "%d/%m/%Y"
    else if choice == "MM/DD/YYYY" then "%m/%d/%Y"
    else "%Y/%m/%d"
  }
}
