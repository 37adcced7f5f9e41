/** TransactionMapper: field-by-field copies between the entity, the projection and the DTO. */
module TransactionMapper {
  import opened Wrappers
  import opened Domain

  /** toEntity(projection): all six fields, the status included; null maps to null. */
  function ProjectionToEntity(p: Option<TransactionProjection>): (r: Option<Transaction>)
    ensures r.None? <==> p.None?
  {
    match p
    case None => None
    case Some(q) => Some(Transaction(q.id, q.branch, q.name, q.amount, q.createDate, q.status))
  }

  /** toEntity(dto): the five DTO fields; the status of the new entity stays null. */
  function DtoToEntity(d: Option<TransactionDTO>): (r: Option<Transaction>)
    ensures r.None? <==> d.None?
    ensures r.Some? ==> r.value.status.None?
  {
    match d
    case None => None
    case Some(e) => Some(EmptyTransaction.(id := e.id, branch := e.branch, name := e.name,
                                            amount := e.amount, createDate := e.createDate))
  }

  /** toDTO(entity): the five non-status fields; null maps to null. */
  function EntityToDto(t: Option<Transaction>): (r: Option<TransactionDTO>)
    ensures r.None? <==> t.None?
  {
    match t
    case None => None
    case Some(e) => Some(TransactionDTO(e.id, e.branch, e.name, e.amount, e.createDate))
  }

  /** A projection's entity carries every column of the projection. */
  lemma ProjectionCopiesAllFields(q: TransactionProjection)
    ensures var t := ProjectionToEntity(Some(q)).value;
      t.id == q.id && t.branch == q.branch && t.name == q.name && t.amount == q.amount
      && t.createDate == q.createDate && t.status == q.status
  {
  }

  /** A DTO's entity carries each DTO field in the field of the same name, and no status. */
  lemma DtoCopiesAllFields(d: TransactionDTO)
    ensures var t := DtoToEntity(Some(d)).value;
      t.id == d.id && t.branch == d.branch && t.name == d.name && t.amount == d.amount
      && t.createDate == d.createDate && t.status.None?
  {
  }

  /** An entity's DTO carries each non-status field in the field of the same name. */
  lemma EntityCopiesAllFields(t: Transaction)
    ensures var d := EntityToDto(Some(t)).value;
      d.id == t.id && d.branch == t.branch && d.name == t.name && d.amount == t.amount
      && d.createDate == t.createDate
  {
  }

  /** DTO to entity and back gives the DTO unchanged. */
  lemma DtoRoundTrip(d: Option<TransactionDTO>)
    ensures EntityToDto(DtoToEntity(d)) == d
  {
  }

  /** Entity to DTO and back loses exactly the status. */
  lemma EntityRoundTrip(t: Transaction)
    ensures DtoToEntity(EntityToDto(Some(t))) == Some(t.(status := None))
  {
  }
}
