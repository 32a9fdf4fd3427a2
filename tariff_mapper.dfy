/** The tariffs service's static mappers between the create request, the
    stored tariff, the response DTO and the message published when a
    tariff changes. Each mapper builds a fresh record field by field. */
module TariffMapper {
  import opened Wrappers

  /** Field types the mappers only copy; their contents do not matter here. */
  type Uuid(==)
  type LocalDate(==)
  type Rate(==)

  /** The body of a create request. */
  datatype TariffCreateDto = TariffCreateDto(
    name: string, startDate: LocalDate, endDate: LocalDate,
    description: string, rate: Rate, author: string)

  /** The stored tariff. `None` in `id` or `version` is a field the builder
      was not given and left at its default. */
  datatype Tariff = Tariff(
    id: Option<Uuid>, name: string, startDate: LocalDate, endDate: LocalDate,
    description: string, rate: Rate, author: string, version: Option<int>)

  /** The tariff as returned to clients. */
  datatype TariffDto = TariffDto(
    id: Option<Uuid>, name: string, startDate: LocalDate, endDate: LocalDate,
    description: string, rate: Rate, author: string, version: Option<int>)

  /** The message published for a tariff attached to a product. */
  datatype TariffKafkaMessage = TariffKafkaMessage(
    id: Option<Uuid>, name: string, startDate: LocalDate, endDate: LocalDate,
    description: string, productId: Uuid, rate: Rate, author: string,
    version: Option<int>)

  /** TariffMapper.toTariff: the business fields of the request; no id, no version. */
  function ToTariff(c: TariffCreateDto): (t: Tariff) {
    Tariff(None, c.name, c.startDate, c.endDate, c.description, c.rate, c.author, None)
  }

  /** TariffMapper.toTariffDto: every field of the tariff. */
  function ToTariffDto(t: Tariff): (d: TariffDto) {
    TariffDto(t.id, t.name, t.startDate, t.endDate, t.description, t.rate, t.author, t.version)
  }

  /** TariffMapper.toTariffKafkaMessage: every field of the tariff, plus the
      product id the caller supplies. */
  function ToTariffKafkaMessage(productId: Uuid, t: Tariff): (m: TariffKafkaMessage) {
    TariffKafkaMessage(t.id, t.name, t.startDate, t.endDate, t.description,
                       productId, t.rate, t.author, t.version)
  }

  /** The business fields of a DTO, as a create request would carry them. */
  function CreateDtoOf(d: TariffDto): (c: TariffCreateDto) {
    TariffCreateDto(d.name, d.startDate, d.endDate, d.description, d.rate, d.author)
  }

  /** A published message without its product id. */
  function DtoOfMessage(m: TariffKafkaMessage): (d: TariffDto) {
    TariffDto(m.id, m.name, m.startDate, m.endDate, m.description, m.rate, m.author, m.version)
  }

  /** toTariff puts each field of the request into the tariff field of the
      same name, unchanged. */
  lemma ToTariffCopiesFields(c: TariffCreateDto)
    ensures ToTariff(c).name == c.name
    ensures ToTariff(c).startDate == c.startDate
    ensures ToTariff(c).endDate == c.endDate
    ensures ToTariff(c).description == c.description
    ensures ToTariff(c).rate == c.rate
    ensures ToTariff(c).author == c.author
  {
  }

  /** toTariffDto puts each field of the tariff into the DTO field of the
      same name, unchanged, id and version included. */
  lemma ToTariffDtoCopiesFields(t: Tariff)
    ensures ToTariffDto(t).id == t.id
    ensures ToTariffDto(t).name == t.name
    ensures ToTariffDto(t).startDate == t.startDate
    ensures ToTariffDto(t).endDate == t.endDate
    ensures ToTariffDto(t).description == t.description
    ensures ToTariffDto(t).rate == t.rate
    ensures ToTariffDto(t).author == t.author
    ensures ToTariffDto(t).version == t.version
  {
  }

  /** toTariffKafkaMessage puts each field of the tariff into the message
      field of the same name, unchanged, and the supplied product id into
      productId. */
  lemma KafkaMessageCopiesFields(productId: Uuid, t: Tariff)
    ensures ToTariffKafkaMessage(productId, t).id == t.id
    ensures ToTariffKafkaMessage(productId, t).name == t.name
    ensures ToTariffKafkaMessage(productId, t).startDate == t.startDate
    ensures ToTariffKafkaMessage(productId, t).endDate == t.endDate
    ensures ToTariffKafkaMessage(productId, t).description == t.description
    ensures ToTariffKafkaMessage(productId, t).productId == productId
    ensures ToTariffKafkaMessage(productId, t).rate == t.rate
    ensures ToTariffKafkaMessage(productId, t).author == t.author
    ensures ToTariffKafkaMessage(productId, t).version == t.version
  {
  }

  /** A tariff built from a request carries no id and no version yet. */
  lemma ToTariffLeavesIdentityUnset(c: TariffCreateDto)
    ensures ToTariff(c).id == None && ToTariff(c).version == None
  {
  }

  /** toTariff drops no field of the request as modelled: distinct requests give distinct tariffs. */
  lemma ToTariffInjective(c1: TariffCreateDto, c2: TariffCreateDto)
    requires ToTariff(c1) == ToTariff(c2)
    ensures c1 == c2
  {
  }

  /** toTariffDto drops no field of the tariff as modelled: distinct tariffs give distinct DTOs. */
  lemma ToTariffDtoInjective(t1: Tariff, t2: Tariff)
    requires ToTariffDto(t1) == ToTariffDto(t2)
    ensures t1 == t2
  {
  }

  /** Apart from the product id, the message is exactly the DTO of the tariff. */
  lemma KafkaMessageAgreesWithDto(productId: Uuid, t: Tariff)
    ensures DtoOfMessage(ToTariffKafkaMessage(productId, t)) == ToTariffDto(t)
  {
  }

  /** Creating a tariff and returning it gives back the request's fields,
      with no id and no version. */
  lemma CreateThenDtoRoundTrip(c: TariffCreateDto)
    ensures CreateDtoOf(ToTariffDto(ToTariff(c))) == c
    ensures ToTariffDto(ToTariff(c)).id == None && ToTariffDto(ToTariff(c)).version == None
  {
  }

  /** Turning a tariff's DTO back into a request and mapping that gives the
      same tariff with its id and version cleared. */
  lemma DtoThenCreateRoundTrip(t: Tariff)
    ensures ToTariff(CreateDtoOf(ToTariffDto(t))) == t.(id := None, version := None)
  {
  }
}
