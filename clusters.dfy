/** Construction of a CNPG Cluster victim from a listed Cluster object. */
module Clusters {
  import opened Errors
  import opened Config
  import Strconv

  type Labels = map<string, string>

  /** The parts of an unstructured Cluster object that are read. */
  datatype Object = Object(kind: string, name: string, namespace: string, labels: Labels)

  /** A Cluster victim: the identity and MTBF held by its victim base. */
  datatype Cluster = Cluster(kind: string, name: string, namespace: string, identifier: string, mtbf: int)

  /** `identifier`: the identifier label's value, as it is (even when empty). */
  function Identifier(obj: Object): (r: Returns<string>)
    ensures r.err.None? <==> IdentLabelKey in obj.labels
    ensures r.err.None? ==> r.value == obj.labels[IdentLabelKey]
    ensures r.err.Some? ==> r == Returns("", Some(MissingLabel(obj.kind, obj.name, IdentLabelKey)))
  {
    if IdentLabelKey in obj.labels then Returns(obj.labels[IdentLabelKey], None)
    else Returns("", Some(MissingLabel(obj.kind, obj.name, IdentLabelKey)))
  }

  /** `meanTimeBetweenFailures`: the MTBF label read as a decimal integer,
      which must be strictly positive; -1 with an error otherwise. */
  function MeanTimeBetweenFailures(obj: Object): (r: Returns<int>)
    ensures r.err.None? <==>
              && MtbfLabelKey in obj.labels
              && Strconv.IsDecimal(obj.labels[MtbfLabelKey])
              && Strconv.Atoi(obj.labels[MtbfLabelKey]).value > 0
    ensures r.err.None? ==> r.value > 0 && Strconv.Atoi(obj.labels[MtbfLabelKey]) == Returns(r.value, None)
    ensures r.err.Some? ==> r.value == -1
    ensures MtbfLabelKey !in obj.labels ==> r.err == Some(MissingLabel(obj.kind, obj.name, MtbfLabelKey))
    ensures MtbfLabelKey in obj.labels && !Strconv.IsDecimal(obj.labels[MtbfLabelKey]) ==>
              r.err == Some(Syntax(obj.labels[MtbfLabelKey]))
  {
    if MtbfLabelKey !in obj.labels then Returns(-1, Some(MissingLabel(obj.kind, obj.name, MtbfLabelKey)))
    else
      var parsed := Strconv.Atoi(obj.labels[MtbfLabelKey]);
      if parsed.err.Some? then Returns(-1, parsed.err)
      else if !(parsed.value > 0) then Returns(-1, Some(InvalidLabelValue(MtbfLabelKey, parsed.value)))
      else Returns(parsed.value, None)
  }

  /** `New`: a Cluster victim, or nil and the first error (identifier before MTBF). */
  function New(obj: Object): (r: Returns<Option<Cluster>>)
    ensures r.err.None? <==> Identifier(obj).err.None? && MeanTimeBetweenFailures(obj).err.None?
    ensures Identifier(obj).err.Some? ==> r.err == Identifier(obj).err
    ensures Identifier(obj).err.None? ==> r.err == MeanTimeBetweenFailures(obj).err
    ensures r.err.Some? <==> r.value.None?
    ensures r.value.Some? ==>
              var c := r.value.value;
              && c.kind == obj.kind && c.name == obj.name && c.namespace == obj.namespace
              && IdentLabelKey in obj.labels && c.identifier == obj.labels[IdentLabelKey]
              && MtbfLabelKey in obj.labels && c.mtbf > 0
              && Strconv.Atoi(obj.labels[MtbfLabelKey]) == Returns(c.mtbf, None)
  {
    var ident := Identifier(obj);
    if ident.err.Some? then Returns(None, ident.err)
    else
      var mtbf := MeanTimeBetweenFailures(obj);
      if mtbf.err.Some? then Returns(None, mtbf.err)
      else Returns(Some(Cluster(obj.kind, obj.name, obj.namespace, ident.value, mtbf.value)), None)
  }

  /** An MTBF label holding the decimal rendering of a positive number reads back as that number. */
  lemma MtbfRoundTrip(obj: Object, n: int)
    requires n > 0 && MtbfLabelKey in obj.labels && obj.labels[MtbfLabelKey] == Strconv.Itoa(n)
    ensures MeanTimeBetweenFailures(obj) == Returns(n, None)
  {
    Strconv.AtoiItoa(n);
  }

  /** Every Cluster victim is constructed back from an object that carries
      its identity, its identifier label and its MTBF label, whatever other
      labels the object has. */
  lemma NewRoundTrip(c: Cluster, labels: Labels)
    requires c.mtbf > 0
    requires IdentLabelKey in labels && labels[IdentLabelKey] == c.identifier
    requires MtbfLabelKey in labels && labels[MtbfLabelKey] == Strconv.Itoa(c.mtbf)
    ensures New(Object(c.kind, c.name, c.namespace, labels)) == Returns(Some(c), None)
  {
    MtbfRoundTrip(Object(c.kind, c.name, c.namespace, labels), c.mtbf);
  }
}
