/**
 * What `WeatherScene` derives from the stored forecast: the selected day, one
 * tile per upcoming day coloured from `dayColors`, and the glyph that
 * `emojiForDescription` picks for each day's icon code.
 */
module Scene {
  import opened Wrappers
  import opened Forecast

  /** U+2600 sun, U+26C5 sun behind cloud, U+2601 cloud, each followed by the emoji selector U+FE0F. */
  const SunGlyph: string := "\U{2600}\U{FE0F}"
  const PartlyCloudyGlyph: string := "\U{26C5}\U{FE0F}"
  const CloudGlyph: string := "\U{2601}\U{FE0F}"

  /** `emojiForDescription`: a total three-way classification of the provider's icon code. */
  function EmojiForDescription(description: string): (glyph: string)
    ensures glyph == SunGlyph || glyph == PartlyCloudyGlyph || glyph == CloudGlyph
    ensures glyph == SunGlyph <==> description == "clear-day"
    ensures glyph == PartlyCloudyGlyph <==> description == "partly-cloudy-day"
    ensures glyph == CloudGlyph <==> description != "clear-day" && description != "partly-cloudy-day"
  {
    if description == "clear-day" then SunGlyph
    else if description == "partly-cloudy-day" then PartlyCloudyGlyph
    else CloudGlyph
  }

  /** `WeatherScene.dayColors`. */
  const DayColors: seq<string> := ["#D8ABCD", "#D19FC5", "#C48AB9", "#B97AB0"]

  /** `WeatherScene.dayColors[index]`: past the end JavaScript yields `undefined`. */
  function DayColorAt(index: nat): (color: Option<string>)
    ensures color.Some? <==> index < MaxUpcomingDays
    ensures color.Some? ==> color.value == DayColors[index]
  {
    if index < |DayColors| then Some(DayColors[index]) else None
  }

  /** The props of one `DayItem` that the scene computes from the forecast. */
  datatype DayTile = DayTile(key: int, backgroundColor: Option<string>, isSelected: bool, icon: string)

  /** The `upcomingWeather.map((upcoming, index) => <DayItem .../>)` of `render`. */
  function DayTiles(upcoming: seq<UpcomingWeatherItem>, selectedDay: nat): (tiles: seq<DayTile>)
    ensures |tiles| == |upcoming|
  {
    seq(|upcoming|, index requires 0 <= index < |upcoming| =>
      DayTile(upcoming[index].date, DayColorAt(index), selectedDay == index, EmojiForDescription(upcoming[index].icon)))
  }

  /**
   * A forecast of at most four days, as shaping produces, gives every tile a
   * colour of its own, and each tile's glyph is the one for its day's icon.
   */
  lemma ShapedTilesAreColored(upcoming: seq<UpcomingWeatherItem>, selectedDay: nat)
    requires |upcoming| <= MaxUpcomingDays
    ensures forall i :: 0 <= i < |upcoming| ==> DayTiles(upcoming, selectedDay)[i].backgroundColor.Some?
    ensures forall i, j :: 0 <= i < j < |upcoming| ==>
              DayTiles(upcoming, selectedDay)[i].backgroundColor != DayTiles(upcoming, selectedDay)[j].backgroundColor
    ensures forall i :: 0 <= i < |upcoming| ==> DayTiles(upcoming, selectedDay)[i].icon == EmojiForDescription(upcoming[i].icon)
  {
    // the four colours already differ in their third character
    assert DayColors[0][2] == '8' && DayColors[1][2] == '1' && DayColors[2][2] == '4' && DayColors[3][2] == '9';
  }

  /** Exactly the tile at `selectedDay` is highlighted, and none when it is past the end. */
  lemma {:induction false} OneTileSelected(upcoming: seq<UpcomingWeatherItem>, selectedDay: nat)
    ensures forall i :: 0 <= i < |upcoming| ==> (DayTiles(upcoming, selectedDay)[i].isSelected <==> i == selectedDay)
    ensures (exists i :: 0 <= i < |upcoming| && DayTiles(upcoming, selectedDay)[i].isSelected) <==> selectedDay < |upcoming|
  {
    if selectedDay < |upcoming| {
      assert DayTiles(upcoming, selectedDay)[selectedDay].isSelected;
    }
  }

  /** The scene component: its forecast prop and the locally held `selectedDay`. */
  class WeatherScene {
    var upcomingWeather: seq<UpcomingWeatherItem>
    var selectedDay: nat

    constructor (upcomingWeather: seq<UpcomingWeatherItem>)
      ensures this.upcomingWeather == upcomingWeather && selectedDay == 0
    {
      this.upcomingWeather := upcomingWeather;
      selectedDay := 0;
    }

    /** The parent re-renders with a new forecast; `selectedDay` is kept as it was. */
    method ReceiveProps(upcomingWeather: seq<UpcomingWeatherItem>)
      modifies this
      ensures this.upcomingWeather == upcomingWeather && selectedDay == old(selectedDay)
    {
      this.upcomingWeather := upcomingWeather;
    }

    /** A tile's `onPress`: `setState({ selectedDay: index })` for that tile's index. */
    method Press(index: nat)
      requires index < |upcomingWeather|
      modifies this
      ensures selectedDay == index && selectedDay < |upcomingWeather|
      ensures upcomingWeather == old(upcomingWeather)
    {
      selectedDay := index;
    }

    /** `this.props.upcomingWeather[selectedDay]`, `undefined` when past the end. */
    function SelectedDayItem(): (item: Option<UpcomingWeatherItem>)
      reads this
      ensures item.Some? <==> selectedDay < |upcomingWeather|
      ensures item.Some? ==> item.value == upcomingWeather[selectedDay] && DayTiles(upcomingWeather, selectedDay)[selectedDay].isSelected
    {
      if selectedDay < |upcomingWeather| then Some(upcomingWeather[selectedDay]) else None
    }
  }
}
