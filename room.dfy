/** The `Room` entity and its factory `Room.of`, which splits the posted
    address into its first four components (doo, si, gu, dong). */
module Rooms {
  import opened Common
  import JavaString

  /** The members of a room posting that `Room.of` reads. */
  datatype PostRoomRequest = PostRoomRequest(
    dealType: string, priceType: string, deposit: int, price: int,
    managementCost: int, managementType: string,
    roomType: string, totalFloor: int, floor: int, structure: string,
    roomSize: real, realRoomSize: real,
    elevators: string, options: string, etcOptions: string,
    isDiscussion: bool, moveInStart: Date, moveInEnd: Date,
    latitude: real, longitude: real, address: string, addressDetails: string)

  datatype RoomCost = RoomCost(
    dealType: string, priceType: int, deposit: int, price: int,
    managementCost: int, managementType: string)

  datatype RoomStructure = RoomStructure(
    roomType: int, totalFloor: int, floor: int, structure: string,
    roomSize: real, realRoomSize: real)

  datatype RoomOption = RoomOption(elevatorOption: string, roomOptions: string, roomEtcOptions: string)

  datatype RoomDiscussion = RoomDiscussion(isDiscussion: bool, moveInStart: Date, moveInEnd: Date)

  datatype RoomAddress = RoomAddress(
    doo: string, si: string, gu: string, dong: string,
    latitude: real, longitude: real, address: string, addressDetail: string)

  /** A room row; `roomId` is assigned by persistence. */
  datatype Room = Room(
    roomId: Option<RoomId>, userId: UserId,
    roomCost: RoomCost, roomStructure: RoomStructure, roomOption: RoomOption,
    roomDiscussion: RoomDiscussion, roomAddress: RoomAddress)

  /** `Room.of(request, userId)`. The enum converters `PriceTypeEnum` and
      `RoomTypeEnum` are parameters that may throw; they run, price type
      first, before the address components are read. Indexing component k
      of a split with fewer than k + 1 components throws, and the first
      index that fails is the number of components. */
  function Of(req: PostRoomRequest, userId: UserId,
              priceTypeValue: string -> Result<int>, roomTypeValue: string -> Result<int>): (r: Result<Room>)
    ensures priceTypeValue(req.priceType).Err? ==> r == Err(priceTypeValue(req.priceType).error)
    ensures priceTypeValue(req.priceType).Ok? && roomTypeValue(req.roomType).Err? ==>
              r == Err(roomTypeValue(req.roomType).error)
    ensures priceTypeValue(req.priceType).Ok? && roomTypeValue(req.roomType).Ok? ==>
      var parts := JavaString.Split(req.address);
      && (r.Ok? <==> |parts| >= 4)
      && (r.Err? ==> r.error == IndexOutOfBounds(|parts|))
      && (r.Ok? ==>
            var a := r.value.roomAddress;
            && a.doo == parts[0] && a.si == parts[1] && a.gu == parts[2] && a.dong == parts[3]
            && a.address == req.address && a.addressDetail == req.addressDetails
            && a.latitude == req.latitude && a.longitude == req.longitude)
    ensures r.Ok? ==> r.value.userId == userId && r.value.roomId.None?
    ensures r.Ok? ==> (Ok(r.value.roomCost.priceType) == priceTypeValue(req.priceType)
                       && Ok(r.value.roomStructure.roomType) == roomTypeValue(req.roomType))
  {
    var parts := JavaString.Split(req.address);
    match priceTypeValue(req.priceType)
    case Err(e) => Err(e)
    case Ok(priceType) =>
      match roomTypeValue(req.roomType)
      case Err(e) => Err(e)
      case Ok(roomType) =>
        var cost := RoomCost(req.dealType, priceType, req.deposit, req.price,
                             req.managementCost, req.managementType);
        var structure := RoomStructure(roomType, req.totalFloor, req.floor,
                                       req.structure, req.roomSize, req.realRoomSize);
        var option := RoomOption(req.elevators, req.options, req.etcOptions);
        var discussion := RoomDiscussion(req.isDiscussion, req.moveInStart, req.moveInEnd);
        if |parts| < 4 then
          Err(IndexOutOfBounds(|parts|))
        else
          var address := RoomAddress(parts[0], parts[1], parts[2], parts[3],
                                     req.latitude, req.longitude, req.address, req.addressDetails);
          Ok(Room(None, userId, cost, structure, option, discussion, address))
  }

  /** Once both converters succeed, an address of at least four space-free
      words separated by single spaces, the last not empty, yields its first four words as doo, si,
      gu and dong; the words after the fourth are kept only in `address`. */
  lemma OfWords(req: PostRoomRequest, ws: seq<string>, userId: UserId,
                priceTypeValue: string -> Result<int>, roomTypeValue: string -> Result<int>)
    requires priceTypeValue(req.priceType).Ok? && roomTypeValue(req.roomType).Ok?
    requires |ws| >= 4 && ws[|ws| - 1] != []
    requires forall k :: 0 <= k < |ws| ==> ' ' !in ws[k]
    requires req.address == JavaString.Join(ws)
    ensures var r := Of(req, userId, priceTypeValue, roomTypeValue);
      && r.Ok?
      && r.value.roomAddress.doo == ws[0] && r.value.roomAddress.si == ws[1]
      && r.value.roomAddress.gu == ws[2] && r.value.roomAddress.dong == ws[3]
      && r.value.roomAddress.address == JavaString.Join(ws)
  {
    JavaString.SplitJoin(ws);
  }

  /** Three words are too few: once both converters succeed, the fourth
      index fails. */
  lemma OfThreeWordsFails(req: PostRoomRequest, w0: string, w1: string, w2: string, userId: UserId,
                          priceTypeValue: string -> Result<int>, roomTypeValue: string -> Result<int>)
    requires priceTypeValue(req.priceType).Ok? && roomTypeValue(req.roomType).Ok?
    requires ' ' !in w0 && ' ' !in w1 && ' ' !in w2 && w2 != []
    requires req.address == w0 + " " + w1 + " " + w2
    ensures Of(req, userId, priceTypeValue, roomTypeValue) == Err(IndexOutOfBounds(3))
  {
    var ws := [w0, w1, w2];
    assert JavaString.Join(ws[2..]) == w2;
    assert JavaString.Join(ws[1..]) == w1 + " " + w2;
    assert JavaString.Join(ws) == w0 + " " + (w1 + " " + w2);
    assert req.address == JavaString.Join(ws);
    JavaString.SplitJoin(ws);
    assert |JavaString.Split(req.address)| == 3;
  }
}
